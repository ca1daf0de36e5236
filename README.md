# Plant diagnosis pipeline — a Dafny model

The plant-care assistant diagnoses a photographed plant in three steps. A caption of
the photo is embedded and searched against a vector database of labelled plant
records. Records of the same species at higher and lower growth levels ("DIE", "Low",
"Medium", "High") are fetched as comparison cohorts. The eight sensor channels (air
temperature and humidity, CO2, light, and soil temperature and moisture at two depths)
are averaged per cohort and compared. The comparison then becomes a report: one score
and status per channel, an overall score, the three channels that deviate most, and
care advice from a text-generation service.

This project models the core of that pipeline and proves properties of the model:

- `MilvusService` (Java): the similar-record search, the level split into better and
  worse cohorts, the cohort query filter, the column-wise averages and the rounded
  comparison rows (`milvus_service.dfy`).
- `PlantAnalysisService` (Java): channel scores and statuses, the overall score, the
  top-issue ranking (`issue_ranking.dfy`), the Higher/Lower tags of the advice
  request, the removal of Markdown code fences from the advice reply, the fallback
  advice and the report assembly (`plant_analysis_service.dfy`).
- The Python retrieval prototype: growth-rank normalisation, the vector mean, the
  higher/lower split and the advice rule table (`retrieval_flow.dfy`).
- The Python ingestion prototype: folder mapping, sensor-vector extraction, the
  embedded text and the buffered batch insertion loop (`multivector_embedding.dfy`).

Shared pieces live in `wrappers.dfy` (Option, Result), `numerics.dfy` (Java's
truncating cast and `Math.round`, Python's round-half-even), `text.dfy` (literal
`replaceAll`, Java `trim`, ASCII case mapping, Python `strip`/`capitalize`,
substring search, `join`), `vectors.dfy` (column sums and means) and
`plant_dto.dfy` (the comparison row, metric score, care guide and report records).

Modelling choices:

- The vector database, the text-generation service, the embedding model, JSON
  decoding of the advice, record-file lookup and Python's `float()` on text are
  function-typed parameters (oracles). A non-success database status is a
  `Failure` carrying the service's exception message.
- Java doubles and Python floats are mathematical reals. The truncating `(int)`
  cast, `Math.round` and Python's `round(x, 2)` (ties to even) are written out.
- Java's `Map.of` has no specified iteration order, so the Java level lists are
  filtered from any duplicate-free listing of the rank table's keys, passed as a
  parameter. Python iterates its dict in declaration order.
- Exceptions that abort an operation (an index past a short vector, `float(None)`,
  a failed database call) are `Failure` results. Exceptions the source catches are
  modelled as the values it substitutes.
- `generateReport` is declared without the analysis-log identifier
  (PlantAnalysisService.java:32-33), and it builds the report with eight components
  (PlantAnalysisService.java:47-56). But the report record has nine, with `logId`
  first (PlantReportRes.java:5-6), and the controller passes the log's id as the
  first argument (PlantController.java:68-76). The model follows the record and the
  caller: `GenerateReport` takes `logId` and copies it into the report.

## Model

| member | source | states |
|---|---|---|
| Numerics.Trunc | BE/src/main/java/cse/plant_care_chatbot/plant/service/PlantAnalysisService.java:199 | the `(int)` cast rounds toward zero: at most the value when it is non-negative, at least the value when negative, and within 1 of it |
| Numerics.Round2 | BE/src/main/java/cse/plant_care_chatbot/plant/service/MilvusService.java:175-177 | `Math.round(x*100)/100.0` has two decimals and lies in (-0.005, 0.005] of x, a tie going up |
| Numerics.Round2Unique | BE/src/main/java/cse/plant_care_chatbot/plant/service/MilvusService.java:175-177 | exactly one two-decimal value lies in (-0.005, 0.005] of x, so the rounded average is fully determined |
| Numerics.PyRound2 | notebooks/retrieval_overall_flow.py:42 | `round(x, 2)` has two decimals and lies within 0.005 of x; at a tie the last decimal is even |
| Numerics.RoundingTieDiffers | notebooks/retrieval_overall_flow.py:42 | Python and Java round a two-decimal tie differently: 0.125 gives 0.12 in Python and 0.13 in Java |
| Text.Trim | BE/src/main/java/cse/plant_care_chatbot/plant/service/PlantAnalysisService.java:164 | the trimmed reply is a slice of the reply with only characters up to U+0020 cut from either end, and none left at either end |
| Text.PyStrip | notebooks/retrieval_overall_flow.py:28 | `strip()` gives a slice of its input with only Python whitespace cut from either end, and none left at either end |
| Text.Capitalize | notebooks/retrieval_overall_flow.py:28 | `capitalize()` keeps the length, upper-cases the first character and lower-cases the rest |
| Text.Upper | BE/src/main/java/cse/plant_care_chatbot/plant/service/PlantAnalysisService.java:208 | `toUpperCase()` maps every character through the upper-case mapping |
| Vectors.MeanOfIdentical | BE/src/main/java/cse/plant_care_chatbot/plant/service/MilvusService.java:185-205 | the mean of copies of one vector is that vector |
| Vectors.MeanWithinColumnBounds | BE/src/main/java/cse/plant_care_chatbot/plant/service/MilvusService.java:193-204 | each channel of the mean lies between the smallest and largest value of that channel |
| MilvusService.Rank | BE/src/main/java/cse/plant_care_chatbot/plant/service/MilvusService.java:33-38 | the rank table gives DIE 0, Low 1, Medium 2, High 3, and -1 exactly for every other string |
| MilvusService.LevelsAbove | BE/src/main/java/cse/plant_care_chatbot/plant/service/MilvusService.java:106-109 | the better levels are exactly the listed levels ranked above the current rank |
| MilvusService.LevelsBelow | BE/src/main/java/cse/plant_care_chatbot/plant/service/MilvusService.java:112-115 | the worse levels are exactly the listed levels ranked below the current rank |
| MilvusService.LevelPartition | BE/src/main/java/cse/plant_care_chatbot/plant/service/MilvusService.java:103-115 | the better and worse sets never overlap and never contain the query level; a known level splits all other levels between them; an unknown level makes every level better and none worse |
| MilvusService.ExtremeLevels | BE/src/main/java/cse/plant_care_chatbot/plant/service/MilvusService.java:103-115 | High has no better level and DIE no worse level |
| MilvusService.FilterExprMentionsEveryLevel | BE/src/main/java/cse/plant_care_chatbot/plant/service/MilvusService.java:129-133 | the filter starts with the species clause and contains one `growth_level == 'L'` clause for every requested level |
| MilvusService.FilterExprTwoLevels | BE/src/main/java/cse/plant_care_chatbot/plant/service/MilvusService.java:129-133 | two levels give the species clause and the two level clauses joined by " or " |
| MilvusService.SearchSimilar | BE/src/main/java/cse/plant_care_chatbot/plant/service/MilvusService.java:69-97 | the search fails exactly on a non-success status, with the "Milvus Operation Failed: " message, and otherwise returns the hits of the species-restricted search |
| MilvusService.QueryByLevels | BE/src/main/java/cse/plant_care_chatbot/plant/service/MilvusService.java:125-156 | the cohort is the query's rows, a failure on a non-success status, and empty without any query when no level is requested |
| MilvusService.EmptyLevelsNeverQuery | BE/src/main/java/cse/plant_care_chatbot/plant/service/MilvusService.java:126 | an empty level list gives an empty cohort whatever the database holds |
| MilvusService.SearchGroups | BE/src/main/java/cse/plant_care_chatbot/plant/service/MilvusService.java:102-122 | the better cohort is queried first, then the worse one, and the first failure aborts |
| MilvusService.ExtremeCohortsEmpty | BE/src/main/java/cse/plant_care_chatbot/plant/service/MilvusService.java:102-122 | for High the better cohort is empty and for DIE the worse cohort is empty |
| MilvusService.CalcAvg | BE/src/main/java/cse/plant_care_chatbot/plant/service/MilvusService.java:185-205 | the array-summing loop returns the column-wise mean over the first record's dimension, none for an empty cohort, and a failure when a record is shorter than the first |
| MilvusService.AddRow | BE/src/main/java/cse/plant_care_chatbot/plant/service/MilvusService.java:193-198 | one record is added into the running column sums, entry by entry |
| MilvusService.AverageProperties | BE/src/main/java/cse/plant_care_chatbot/plant/service/MilvusService.java:185-205 | an average is absent exactly for an empty cohort; a present one has the first record's dimension; a single record averages to itself |
| MilvusService.CompareAverages | BE/src/main/java/cse/plant_care_chatbot/plant/service/MilvusService.java:166-181 | the row loop yields the eight rounded rows, nothing when all three averages are absent, and a failure when a present average is shorter than eight |
| MilvusService.ComparisonRows | BE/src/main/java/cse/plant_care_chatbot/plant/service/MilvusService.java:166-181 | there are eight rows in channel order unless every average is absent; a field is absent exactly when its cohort was empty; a present field is the channel average rounded to two decimals |
| MilvusService.CompareSensors | BE/src/main/java/cse/plant_care_chatbot/plant/service/MilvusService.java:161-182 | comparison rows come from the averages of the similar hits and of both cohorts, and the first failing average aborts |
| MilvusService.TopImages | BE/src/main/java/cse/plant_care_chatbot/plant/service/MilvusService.java:56-59 | the image names of the first three hits, in search order |
| MilvusService.SearchAndAnalyze | BE/src/main/java/cse/plant_care_chatbot/plant/service/MilvusService.java:48-64 | a failed search or cohort query aborts; otherwise the result holds the first three image names and the comparison rows of the five similar hits and five-record cohorts |
| IssueRanking.AtLeastTotalOrder | BE/src/main/java/cse/plant_care_chatbot/plant/service/PlantAnalysisService.java:221-225 | `Double.compare` on deviations, NaN and infinity included, is a total order |
| IssueRanking.Candidates | BE/src/main/java/cse/plant_care_chatbot/plant/service/PlantAnalysisService.java:219-220 | every row with both averages present is kept as often as it occurs in the input, and no other row |
| IssueRanking.CandidatesSingle | BE/src/main/java/cse/plant_care_chatbot/plant/service/PlantAnalysisService.java:219-220 | a lone row is kept exactly when both its averages are present |
| IssueRanking.CandidatesAppend | BE/src/main/java/cse/plant_care_chatbot/plant/service/PlantAnalysisService.java:219-220 | the filter keeps input order: the candidates of a + b are those of a followed by those of b |
| IssueRanking.SortByDeviation | BE/src/main/java/cse/plant_care_chatbot/plant/service/PlantAnalysisService.java:221-225 | sorting permutes the candidates |
| IssueRanking.SortSorted | BE/src/main/java/cse/plant_care_chatbot/plant/service/PlantAnalysisService.java:221-225 | the sorted rows have non-increasing deviation |
| IssueRanking.SortKeepsTies | BE/src/main/java/cse/plant_care_chatbot/plant/service/PlantAnalysisService.java:221-225 | rows with equal deviation keep their input order, as the stable sort does |
| IssueRanking.StableSortIsUnique | BE/src/main/java/cse/plant_care_chatbot/plant/service/PlantAnalysisService.java:221-225 | any two sorted sequences that keep each deviation's rows in the same order are equal, so the ranking is fully determined |
| IssueRanking.Take | BE/src/main/java/cse/plant_care_chatbot/plant/service/PlantAnalysisService.java:226 | the limit keeps the first three rows, or all rows when there are fewer |
| IssueRanking.TopIssuesProperties | BE/src/main/java/cse/plant_care_chatbot/plant/service/PlantAnalysisService.java:218-228 | the top issues are at most three complete rows from the input (exactly three when three qualify), ordered by non-increasing deviation with ties in input order, and no row left out ranks above a row kept |
| PlantAnalysisService.CalculateMetricScores | BE/src/main/java/cse/plant_care_chatbot/plant/service/PlantAnalysisService.java:193-205 | one score per row, in row order, each the score of its row |
| PlantAnalysisService.MetricScoreProperties | BE/src/main/java/cse/plant_care_chatbot/plant/service/PlantAnalysisService.java:195-203 | a score keeps its channel name, is never negative and is at most 100 for a non-negative ideal; the status is adequate exactly when the score is at least 80, otherwise deficient exactly when the current value is below the ideal, else excessive |
| PlantAnalysisService.PerfectScores | BE/src/main/java/cse/plant_care_chatbot/plant/service/PlantAnalysisService.java:196-199 | a missing better average, a zero ideal, or a current value equal to the ideal gives a score of 100 |
| PlantAnalysisService.AdequateBand | BE/src/main/java/cse/plant_care_chatbot/plant/service/PlantAnalysisService.java:198-201 | for a positive ideal the status is adequate exactly when the relative deviation is at most 2/15 |
| PlantAnalysisService.ScoreExample | BE/src/main/java/cse/plant_care_chatbot/plant/service/PlantAnalysisService.java:196-202 | current 20 against ideal 25 scores 70 and is deficient |
| PlantAnalysisService.NegativeIdealExceedsHundred | BE/src/main/java/cse/plant_care_chatbot/plant/service/PlantAnalysisService.java:197-199 | a negative ideal (-10 against -20) makes the score 250, above the 0..100 range |
| PlantAnalysisService.BaseScoreTable | BE/src/main/java/cse/plant_care_chatbot/plant/service/PlantAnalysisService.java:208-213 | High, Medium and Low in any letter case give 90, 70 and 50; every other level, DIE included, gives 30 |
| PlantAnalysisService.OverallMonotone | BE/src/main/java/cse/plant_care_chatbot/plant/service/PlantAnalysisService.java:214-215 | for a fixed level the overall score never drops as the mean metric score rises |
| PlantAnalysisService.OverallBounds | BE/src/main/java/cse/plant_care_chatbot/plant/service/PlantAnalysisService.java:207-216 | with every metric score in 0..100 the overall score lies in 21..93 |
| PlantAnalysisService.OverallExample | BE/src/main/java/cse/plant_care_chatbot/plant/service/PlantAnalysisService.java:207-216 | Medium with a single score of 70 gives 70 |
| PlantAnalysisService.NoFenceAfterRemoval | BE/src/main/java/cse/plant_care_chatbot/plant/service/PlantAnalysisService.java:164 | after every "```" is removed left to right none is left, since removal never joins backticks into a new fence |
| PlantAnalysisService.StripFencesClean | BE/src/main/java/cse/plant_care_chatbot/plant/service/PlantAnalysisService.java:164 | the cleaned reply contains no "```" and has no blank at either end |
| PlantAnalysisService.StripFencesRoundTrip | BE/src/main/java/cse/plant_care_chatbot/plant/service/PlantAnalysisService.java:164 | a backtick-free body wrapped in a json code block comes back unchanged |
| PlantAnalysisService.ParseGeminiResponse | BE/src/main/java/cse/plant_care_chatbot/plant/service/PlantAnalysisService.java:160-183 | a missing candidate text or an undecodable fence-stripped text gives the parse-failure advice; a decodable one gives exactly the decoded advice |
| PlantAnalysisService.FencedReplyDecodesBody | BE/src/main/java/cse/plant_care_chatbot/plant/service/PlantAnalysisService.java:164-178 | advice wrapped in a json code block is decoded exactly as the bare advice text would be |
| PlantAnalysisService.FallbacksDiffer | BE/src/main/java/cse/plant_care_chatbot/plant/service/PlantAnalysisService.java:91-95 | the call-failure advice carries one keyword and one guide entry, whereas the parse-failure advice has none |
| PlantAnalysisService.AskGeminiForAdvice | BE/src/main/java/cse/plant_care_chatbot/plant/service/PlantAnalysisService.java:79-96 | a failed call gives the call-failure advice; a delivered reply gives the parsed advice, the parse-failure advice when it has no text, and never the call-failure advice unless that is what it decodes to |
| PlantAnalysisService.SensorLines | BE/src/main/java/cse/plant_care_chatbot/plant/service/PlantAnalysisService.java:102-107 | one prompt line per comparison row, with absent averages printed as 0 |
| PlantAnalysisService.IssueLines | BE/src/main/java/cse/plant_care_chatbot/plant/service/PlantAnalysisService.java:109-116 | one prompt line per top issue, with absent averages printed as 0 |
| PlantAnalysisService.IssueDirection | BE/src/main/java/cse/plant_care_chatbot/plant/service/PlantAnalysisService.java:110-115 | an issue is tagged Higher exactly when its current value exceeds the ideal, and a tie is Lower; the prompt prints a missing ideal as 0 while scoring uses the current value |
| PlantAnalysisService.GenerateReport | BE/src/main/java/cse/plant_care_chatbot/plant/service/PlantAnalysisService.java:32-57 | the report carries the log id, name, caption and images unchanged, one score per row, the overall score of those scores, and the advice for the top issues |
| RetrievalFlow.PyGrowthRankNeverZero | notebooks/retrieval_overall_flow.py:27-28 | the normalised rank is -1, 1, 2 or 3, never 0 |
| RetrievalFlow.CanonicalRank | notebooks/retrieval_overall_flow.py:27-28 | Low, Medium and High spelled as in the table get the table's rank |
| RetrievalFlow.PaddedUpperCaseLow | notebooks/retrieval_overall_flow.py:27-28 | " LOW " is rank 1 |
| RetrievalFlow.DieIsUnknown | notebooks/retrieval_overall_flow.py:27-28 | "DIE" is rank -1, because capitalising turns it into "Die" |
| RetrievalFlow.DeclarationOrderEnumerates | notebooks/retrieval_overall_flow.py:22 | the declaration order lists every level of the table exactly once |
| RetrievalFlow.LevelSplit | notebooks/retrieval_overall_flow.py:102-104 | for each rank, the exact higher and lower level lists in declaration order; an unknown level makes every level higher |
| RetrievalFlow.SearchGrowthGroups | notebooks/retrieval_overall_flow.py:100-119 | each group is queried only when its level list is not empty, and a raised query aborts |
| RetrievalFlow.GroupRowsIsCohort | notebooks/retrieval_overall_flow.py:107-115 | a group query is the Java cohort query, with the same filter and the same rows |
| RetrievalFlow.SameGroupsAsService | notebooks/retrieval_overall_flow.py:100-119 | for Low, Medium and High the prototype's groups equal the Java service's cohorts listed in declaration order |
| RetrievalFlow.DieDiffersFromService | notebooks/retrieval_overall_flow.py:102-104 | for "DIE" the prototype treats all four levels as higher, the Java service only the three above DIE |
| RetrievalFlow.VectorMean | notebooks/retrieval_overall_flow.py:30-35 | a present mean has the vectors' length |
| RetrievalFlow.VectorMeanProperties | notebooks/retrieval_overall_flow.py:30-35 | the mean is absent exactly for no vectors; copies of one vector average to it; on same-length vectors it equals the Java average |
| RetrievalFlow.ExplainSensorDiff | notebooks/retrieval_overall_flow.py:37-57 | the loop returns the advice for every field in order |
| RetrievalFlow.ExplanationOrdered | notebooks/retrieval_overall_flow.py:40-56 | at most one message per field, in field order, each naming its field and the rule that fires for it |
| RetrievalFlow.ExplanationComplete | notebooks/retrieval_overall_flow.py:40-56 | every field whose rule fires gets its message |
| RetrievalFlow.AdviceRules | notebooks/retrieval_overall_flow.py:42-56 | no advice below a rounded gap of 0.1; temperature and humidity advice go against the gap's sign; pH advice needs a gap above 0.3; dilution needs a current value more than 0.5 above; a temperature field with a large enough gap always gets temperature advice |
| RetrievalFlow.QuietField | notebooks/retrieval_overall_flow.py:45-56 | a field naming none of Temp, Humidity, PH and EC never gets advice |
| RetrievalFlow.QuietAirFields | notebooks/retrieval_overall_flow.py:45-56 | Co2 and Quantum never get advice |
| RetrievalFlow.QuietSoilMoisture | notebooks/retrieval_overall_flow.py:45-56 | HighSoilHumi and LowSoilHumi never get advice |
| RetrievalFlow.CompareEnvironment | notebooks/retrieval_overall_flow.py:125-156 | the three means are taken first; no advice when the similar or higher mean is absent; a failure when a mean is too short to index; otherwise the advice for the eight fields |
| RetrievalFlow.EarlyReturn | notebooks/retrieval_overall_flow.py:127-133 | no similar samples or no higher group gives no advice |
| RetrievalFlow.ServiceKeepsRowsWithoutBetter | notebooks/retrieval_overall_flow.py:131-133 | with no higher group the prototype gives no advice, whereas the Java service still lists all eight channels |
| MultivectorEmbedding.SameChannelOrder | notebooks/multivector_embedding.py:13-16 | ingestion stores the channels in the order the Java service reads them, eight of them |
| MultivectorEmbedding.FolderForCaption | notebooks/multivector_embedding.py:43-50 | Boston fern is checked first, then spathiphyllum, and there is no folder exactly when the name contains neither |
| MultivectorEmbedding.BostonCaptionFileMapped | notebooks/multivector_embedding.py:80-83 | the Boston fern caption file maps to the Boston fern record folder |
| MultivectorEmbedding.SpathiphyllumCaptionFileMapped | notebooks/multivector_embedding.py:80-83 | the Spathiphyllum caption file maps to the Spathiphyllum record folder, not the Boston fern one |
| MultivectorEmbedding.ChannelValue | notebooks/multivector_embedding.py:60-63 | `float()` fails exactly on null, arrays and objects |
| MultivectorEmbedding.Channels | notebooks/multivector_embedding.py:59-63 | the channel values in field order, failing exactly when some channel fails |
| MultivectorEmbedding.ExtractSensorVector | notebooks/multivector_embedding.py:53-64 | the loop appends one value per channel, in channel order |
| MultivectorEmbedding.SensorVectorProperties | notebooks/multivector_embedding.py:57-63 | eight values on success; a missing channel and an unparsable text both read as 0; no sensor entry gives eight zeros; extraction fails exactly when a channel holds null, an array or an object |
| MultivectorEmbedding.BuildCombinedText | notebooks/multivector_embedding.py:67-77 | the text starts with the info header and the plant name and ends with the caption |
| MultivectorEmbedding.CombinedTextDeterminesCaption | notebooks/multivector_embedding.py:77 | two texts for one record are equal exactly when their captions are |
| MultivectorEmbedding.ItemRowOutcome | notebooks/multivector_embedding.py:100-121 | an entry is skipped exactly when its image name is missing or empty or its record file does not exist, fails exactly when its sensor values raise, and otherwise yields its record's fields, eight sensor values, the embedding of its combined text and its image name |
| MultivectorEmbedding.KeptRows | notebooks/multivector_embedding.py:99-121 | rows are kept exactly when no entry fails, a failure is some entry's failure, and no more rows are kept than there are entries |
| MultivectorEmbedding.KeptRowsSingle | notebooks/multivector_embedding.py:99-121 | a lone entry keeps its own row, or nothing when it is skipped |
| MultivectorEmbedding.KeptRowsAppend | notebooks/multivector_embedding.py:99-121 | the rows kept from a + b are those kept from a followed by those kept from b, so entry order is kept and no row is lost or repeated |
| MultivectorEmbedding.AccumulateKeepsRows | notebooks/multivector_embedding.py:116-130 | the batches inserted during the loop are full, and together with the buffer they are exactly the rows fed |
| MultivectorEmbedding.FileBatchesShape | notebooks/multivector_embedding.py:123-139 | every kept row is inserted exactly once and in order; every batch holds 1 to 50 rows; all batches but a file's last hold exactly 50 |
| MultivectorEmbedding.AccumulateCounts | notebooks/multivector_embedding.py:116-130 | after n rows the loop has inserted n / 50 full batches and holds n % 50 rows in its buffers |
| MultivectorEmbedding.FileBatchesCount | notebooks/multivector_embedding.py:123-139 | a file of n kept rows inserts n / 50 batches of fifty, then one batch of the n % 50 rows left when that is not zero |
| MultivectorEmbedding.FileBatchesExample | notebooks/multivector_embedding.py:123-139 | 120 kept rows are inserted as 50, 50 and 20 |
| MultivectorEmbedding.Ingestion.constructor | notebooks/multivector_embedding.py:85-86 | nothing buffered, nothing inserted, count zero |
| MultivectorEmbedding.Ingestion.Reset | notebooks/multivector_embedding.py:97 | the six buffers are emptied and nothing else changes |
| MultivectorEmbedding.Ingestion.Append | notebooks/multivector_embedding.py:116-121 | one row is appended across the six parallel buffers |
| MultivectorEmbedding.Ingestion.Insert | notebooks/multivector_embedding.py:124-128 | the buffered rows are inserted as one batch and counted |
| MultivectorEmbedding.PrepareRow | notebooks/multivector_embedding.py:100-121 | preparing one entry gives exactly its outcome in the batching specification: skipped, its row, or the extraction failure |
| MultivectorEmbedding.Feed | notebooks/multivector_embedding.py:116-130 | appending a row and flushing a full buffer advances the buffered state by one row |
| MultivectorEmbedding.IngestFile | notebooks/multivector_embedding.py:97-139 | a file inserts exactly its batches, and fails exactly when one of its entries fails |
| MultivectorEmbedding.IngestCaptionFile | notebooks/multivector_embedding.py:89-92 | a caption file without a folder inserts nothing |
| MultivectorEmbedding.IngestAll | notebooks/multivector_embedding.py:88-139 | all files together insert their batches in file order, and the count equals the number of rows inserted |

## Left out

- I/O: database connections, collection schema, index creation and loading, HTTP
  calls to the text-generation service with their timeout, file reading, logging,
  progress bars and printing. The services are oracles.
- The advice prompt's wording and its `%.1f` formatting. Only the values that fill
  it are modelled (PlantAnalysisService.java:118-157).
- The controller, persistence of the analysis log, and the caption and embedding
  services. PlantService.java's own fence stripping is not part of this model.
- `search_similar_symptoms` and `analyze_plant_condition` in the retrieval
  prototype (printing, and a search like the Java one), and the advice message text.
  Only the rule that fires and the rounded gap are kept.
- MilvusService.LevelsAbove: the order of the Java level lists is left to the
  caller-supplied listing, because `Map.of` does not fix one.
- Numerics.Trunc: no saturation at the `int` range; exact reals stand for doubles
  and floats.
- Numerics.Round2: `Math.round` on a float saturates at the `int` range, so averages
  beyond about ±21,474,836.47 round differently in the source; the model does not
  saturate. IEEE rounding error, the single-precision sums of `calcAvg` and
  signed zero are not modelled.
- IssueRanking.DeviationOf: a zero better-average gives Infinity or NaN as
  `Double.compare` orders them. A negative zero is treated as zero.
- Text.Upper: case mapping covers ASCII letters only.
- Text.Capitalize: case mapping covers ASCII letters only.
- MilvusService.SearchAndAnalyze: the search and query oracles receive topK 5 and limit 5,
  but nothing makes them honour it, so no contract bounds the hits or cohort rows by 5.
- MilvusService.CalcAvg: a null cohort list is treated like an empty one. Its callers
  never pass null.
- PlantAnalysisService.ParseGeminiResponse: Jackson's tree navigation is reduced to
  "candidate text present or not", and decoding the advice JSON is an oracle.
- MultivectorEmbedding.PrepareRow: a record missing one of the rendered fields raises
  `KeyError` in the source, which is not modelled. The record fields arrive already
  rendered as text. `Path(image_name).stem` and the record-file path are inside the
  record-store oracle. A `Gemini_Caption` that is present but null is rendered as the
  text "None" by the source; the model cannot tell it from a missing caption and uses
  the empty string for both.
- MultivectorEmbedding.IngestAll: after a failing entry the script stops. The model
  then states only the failure and the buffer invariant, not which batches were
  already inserted.
- MultivectorEmbedding.IngestFile: on a failing entry the model states the failure and
  the buffer invariant, not which batches were inserted before it.
- MultivectorEmbedding.IngestCaptionFile: the same gap as IngestFile after a failing
  entry.
- RetrievalFlow.VectorMean: vectors of different lengths are a failure, as recent
  numpy raises for them. numpy's float64 arithmetic is taken as exact
  (reals stand for doubles); IEEE rounding in its sums and division is not modelled.
