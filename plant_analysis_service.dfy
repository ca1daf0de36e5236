/**
 * The scoring half of the pipeline (`PlantAnalysisService`): per-channel scores and
 * statuses, the overall score, the report assembly, the Higher/Lower tags of the
 * advice prompt, the Markdown-fence stripping of the advice reply and the fallback
 * advice. The text-generation service is an oracle from the prompt's content to its
 * reply; decoding the reply's JSON is an oracle too.
 */
module PlantAnalysisService {
  import opened Wrappers
  import opened Numerics
  import opened Text
  import opened PlantDto
  import opened IssueRanking

  /** Status labels: adequate, deficient, excessive. */
  const Adequate: string := "적정"
  const Deficient: string := "부족"
  const Excessive: string := "과다"

  /** Score points lost per percent of relative deviation. */
  const PenaltyWeight: real := 1.5
  /** The lowest score whose status is adequate. */
  const AdequateThreshold: int := 80
  /** Weight of the growth-level base score in the overall score; the mean metric score gets the rest. */
  const BaseWeight: real := 0.7

  // ---------------------------------------------------------------- metric scores

  /** The similar-cohort average, read as 0 when absent. */
  function Current(s: SensorComparison): real {
    s.similarAvg.GetOr(0.0)
  }

  /** The better-cohort average; when absent the current value itself is taken as ideal. */
  function Ideal(s: SensorComparison): real {
    s.betterAvg.GetOr(Current(s))
  }

  /** Relative deviation from the ideal, defined as 0 for a zero ideal. */
  function DiffRatio(current: real, ideal: real): real {
    if ideal == 0.0 then 0.0 else Abs(current - ideal) / ideal
  }

  function ChannelScore(current: real, ideal: real): int {
    Trunc(Max(0.0, 100.0 - DiffRatio(current, ideal) * 100.0 * PenaltyWeight))
  }

  function ChannelStatus(current: real, ideal: real, score: int): string {
    if score < AdequateThreshold then (if current < ideal then Deficient else Excessive) else Adequate
  }

  /** The score and status of one comparison row. */
  function MetricScoreOf(s: SensorComparison): MetricScore {
    var score := ChannelScore(Current(s), Ideal(s));
    MetricScore(s.sensorName, score, ChannelStatus(Current(s), Ideal(s), score))
  }

  /** `calculateMetricScores`: one score per row, in row order. */
  method CalculateMetricScores(sensors: seq<SensorComparison>) returns (scores: seq<MetricScore>)
    ensures |scores| == |sensors|
    ensures forall i :: 0 <= i < |sensors| ==> scores[i] == MetricScoreOf(sensors[i])
  {
    scores := [];
    for i := 0 to |sensors|
      invariant |scores| == i
      invariant forall j :: 0 <= j < i ==> scores[j] == MetricScoreOf(sensors[j])
    {
      var current := Current(sensors[i]);
      var ideal := Ideal(sensors[i]);
      var diffRatio := if ideal == 0.0 then 0.0 else Abs(current - ideal) / ideal;
      var score := Trunc(Max(0.0, 100.0 - diffRatio * 100.0 * PenaltyWeight));
      var status := Adequate;
      if score < AdequateThreshold {
        status := if current < ideal then Deficient else Excessive;
      }
      scores := scores + [MetricScore(sensors[i].sensorName, score, status)];
    }
  }

  /**
   * A score keeps its row's channel name, is never negative, and is at most 100
   * whenever the ideal is not negative; the status is adequate exactly when the score
   * reaches 80, and otherwise says on which side of the ideal the current value lies.
   */
  lemma MetricScoreProperties(s: SensorComparison)
    ensures var m := MetricScoreOf(s);
      && m.sensorName == s.sensorName
      && 0 <= m.score
      && (0.0 <= Ideal(s) ==> m.score <= 100)
      && (m.status == Adequate <==> m.score >= AdequateThreshold)
      && (m.status == Deficient <==> m.score < AdequateThreshold && Current(s) < Ideal(s))
      && (m.status == Excessive <==> m.score < AdequateThreshold && Current(s) >= Ideal(s))
  {
    var d := DiffRatio(Current(s), Ideal(s));
    if 0.0 <= Ideal(s) {
      assert 0.0 <= d;
      assert 100.0 - d * 100.0 * PenaltyWeight <= 100.0;
      TruncMonotone(Max(0.0, 100.0 - d * 100.0 * PenaltyWeight), 100.0);
      TruncOfInt(100);
    }
  }

  /**
   * No better cohort, a zero ideal, or a current value equal to the ideal all give a
   * perfect score; with no better cohort the status is adequate.
   */
  lemma PerfectScores(s: SensorComparison)
    ensures Ideal(s) == 0.0 ==> MetricScoreOf(s).score == 100
    ensures Current(s) == Ideal(s) ==> MetricScoreOf(s).score == 100 && MetricScoreOf(s).status == Adequate
    ensures s.betterAvg.None? ==> MetricScoreOf(s).score == 100 && MetricScoreOf(s).status == Adequate
  {
    TruncOfInt(100);
  }

  /** For a positive ideal the status is adequate exactly when the relative deviation is at most 2/15. */
  lemma AdequateBand(s: SensorComparison)
    requires 0.0 < Ideal(s)
    ensures MetricScoreOf(s).status == Adequate <==> Abs(Current(s) - Ideal(s)) * 15.0 <= 2.0 * Ideal(s)
  {
    var c, i := Current(s), Ideal(s);
    var d := Abs(c - i) / i;
    var x := Max(0.0, 100.0 - d * 100.0 * PenaltyWeight);
    assert d * i == Abs(c - i);
    TruncIsFloorOnNonNegative(x);
    assert (d * 15.0 - 2.0) * i == Abs(c - i) * 15.0 - 2.0 * i;
    if Abs(c - i) * 15.0 <= 2.0 * i {
      SignOfProduct(d * 15.0 - 2.0, i);
      assert d * 15.0 <= 2.0;
      assert x >= 80.0;
      TruncMonotone(80.0, x);
      TruncOfInt(80);
    } else {
      SignOfProduct(d * 15.0 - 2.0, i);
      assert d * 15.0 > 2.0;
      assert x < 80.0;
    }
    MetricScoreProperties(s);
  }

  lemma SignOfProduct(a: real, b: real)
    requires 0.0 < b
    ensures a * b <= 0.0 <==> a <= 0.0
  {
    if a > 0.0 {
      assert a * b > 0.0;
    }
  }

  /** Current 20 against ideal 25: deviation 0.2, score 70, deficient. */
  lemma ScoreExample()
    ensures MetricScoreOf(SensorComparison("AirTemperature", Some(20.0), Some(25.0), Some(15.0)))
         == MetricScore("AirTemperature", 70, Deficient)
  {
    TruncOfInt(70);
  }

  /** A negative ideal flips the sign of the deviation and pushes the score past 100. */
  lemma NegativeIdealExceedsHundred()
    ensures MetricScoreOf(SensorComparison("LowSoilTemp", Some(-20.0), Some(-10.0), None)).score == 250
  {
    TruncOfInt(250);
  }

  // ---------------------------------------------------------------- overall score

  /** The base score of a growth level, compared after upper-casing. */
  function BaseScore(level: string): int {
    var u := Upper(level);
    if u == "HIGH" then 90
    else if u == "MEDIUM" then 70
    else if u == "LOW" then 50
    else 30
  }

  function SumScores(scores: seq<MetricScore>): int {
    if scores == [] then 0 else SumScores(scores[..|scores| - 1]) + scores[|scores| - 1].score
  }

  /** The mean metric score, 0 for no scores. */
  function MeanScore(scores: seq<MetricScore>): real {
    if scores == [] then 0.0 else SumScores(scores) as real / |scores| as real
  }

  /** `calculateOverallScore`: the base score and the mean metric score blended 0.7/0.3, truncated. */
  function OverallScore(level: string, scores: seq<MetricScore>): int {
    Trunc(BaseScore(level) as real * BaseWeight + MeanScore(scores) * (1.0 - BaseWeight))
  }

  /** The base table matches HIGH, MEDIUM and LOW in any letter case; every other level, DIE included, gets 30. */
  lemma BaseScoreTable(level: string)
    ensures BaseScore("High") == 90 && BaseScore("HIGH") == 90 && BaseScore("high") == 90
    ensures BaseScore("Medium") == 70 && BaseScore("medium") == 70
    ensures BaseScore("Low") == 50 && BaseScore("LOW") == 50
    ensures BaseScore("DIE") == 30 && BaseScore("Die") == 30
    ensures Upper(level) != "HIGH" && Upper(level) != "MEDIUM" && Upper(level) != "LOW" ==> BaseScore(level) == 30
  {
    assert Upper("High") == "HIGH" && Upper("HIGH") == "HIGH" && Upper("high") == "HIGH";
    assert Upper("Medium") == "MEDIUM" && Upper("medium") == "MEDIUM";
    assert Upper("Low") == "LOW" && Upper("LOW") == "LOW";
    assert Upper("DIE") == "DIE" && Upper("Die") == "DIE";
  }

  /** For a fixed level the overall score never decreases as the mean metric score grows. */
  lemma OverallMonotone(level: string, a: seq<MetricScore>, b: seq<MetricScore>)
    requires MeanScore(a) <= MeanScore(b)
    ensures OverallScore(level, a) <= OverallScore(level, b)
  {
    var base := BaseScore(level) as real * BaseWeight;
    TruncMonotone(base + MeanScore(a) * (1.0 - BaseWeight), base + MeanScore(b) * (1.0 - BaseWeight));
  }

  lemma {:induction false} SumScoresBounds(scores: seq<MetricScore>)
    requires forall k :: 0 <= k < |scores| ==> 0 <= scores[k].score <= 100
    ensures 0 <= SumScores(scores) <= 100 * |scores|
    decreases |scores|
  {
    if scores != [] {
      SumScoresBounds(scores[..|scores| - 1]);
    }
  }

  /** With every metric score between 0 and 100 the overall score lies between 21 and 93. */
  lemma OverallBounds(level: string, scores: seq<MetricScore>)
    requires forall k :: 0 <= k < |scores| ==> 0 <= scores[k].score <= 100
    ensures 21 <= OverallScore(level, scores) <= 93
  {
    SumScoresBounds(scores);
    var m := MeanScore(scores);
    if scores != [] {
      var n := |scores| as real;
      assert SumScores(scores) as real <= 100.0 * n;
      assert m * n == SumScores(scores) as real;
    }
    assert 0.0 <= m <= 100.0;
    var x := BaseScore(level) as real * BaseWeight + m * (1.0 - BaseWeight);
    assert 21.0 <= x <= 93.0;
    TruncMonotone(21.0, x);
    TruncMonotone(x, 93.0);
    TruncOfInt(21);
    TruncOfInt(93);
  }

  /** Medium with a single score of 70: 70 * 0.7 + 70 * 0.3 = 70. */
  lemma OverallExample()
    ensures OverallScore("Medium", [MetricScore("AirTemperature", 70, Deficient)]) == 70
  {
    BaseScoreTable("Medium");
    assert SumScores([MetricScore("AirTemperature", 70, Deficient)]) == 70;
    TruncOfInt(70);
  }

  // ---------------------------------------------------------------- fences

  const Fence: string := "```"
  const JsonFence: string := "```json"

  /** Drops every "```json", then every "```", then trims. */
  function StripFences(text: string): string {
    Trim(RemoveAll(RemoveAll(text, JsonFence), Fence))
  }

  predicate NoBacktick(s: string) {
    forall k :: 0 <= k < |s| ==> s[k] != '`'
  }

  /** A string that does not start with a fence starts, after fence removal, with the same character. */
  lemma RemoveFenceHead(s: string)
    requires s != [] && !StartsWith(s, Fence)
    ensures RemoveAll(s, Fence) == [s[0]] + RemoveAll(s[1..], Fence)
  {
  }

  /** After removing every fence left to right, no fence is left: removal never joins backticks into a new one. */
  lemma {:induction false} NoFenceAfterRemoval(s: string)
    ensures !Contains(RemoveAll(s, Fence), Fence)
    decreases |s|
  {
    if s == [] {
    } else if StartsWith(s, Fence) {
      NoFenceAfterRemoval(s[|Fence|..]);
    } else {
      var t := s[1..];
      var r := RemoveAll(s, Fence);
      NoFenceAfterRemoval(t);
      RemoveFenceHead(s);
      assert r[1..] == RemoveAll(t, Fence);
      if s[0] == '`' {
        // the head is a backtick: what follows it after removal never starts with two backticks
        if t != [] && t[0] == '`' {
          assert !StartsWith(t, Fence);
          RemoveFenceHead(t);
          var u := t[1..];
          if u != [] {
            assert u[0] != '`';
            assert !StartsWith(u, Fence);
            RemoveFenceHead(u);
          }
        } else if t != [] {
          assert !StartsWith(t, Fence);
          RemoveFenceHead(t);
        }
      }
      assert !StartsWith(r, Fence);
    }
  }

  lemma SliceKeepsNoFence(x: string, i: nat, j: nat)
    requires i <= j <= |x| && !Contains(x, Fence)
    ensures !Contains(x[i..j], Fence)
  {
    if Contains(x[i..j], Fence) {
      var k := FirstIndexOf(x[i..j], Fence);
      var y := x[i..j];
      assert y[k..k + |Fence|] == Fence;
      assert x[i + k..i + k + |Fence|] == Fence by {
        forall m | 0 <= m < |Fence|
          ensures x[i + k + m] == Fence[m]
        {
          assert y[k..k + |Fence|][m] == y[k + m];
        }
      }
      ContainsAt(x, Fence, i + k);
    }
  }

  /** The stripped text holds no "```" and has no blank at either end. */
  lemma StripFencesClean(text: string)
    ensures !Contains(StripFences(text), Fence)
    ensures var r := StripFences(text); r == [] || (!IsJavaBlank(r[0]) && !IsJavaBlank(r[|r| - 1]))
  {
    var x := RemoveAll(RemoveAll(text, JsonFence), Fence);
    NoFenceAfterRemoval(RemoveAll(text, JsonFence));
    var i := LeadingBlanks(x);
    SliceKeepsNoFence(x, i, i + WithoutTrailingBlanks(x[i..]));
  }

  lemma {:induction false} RemoveAllSkipsPlainPrefix(u: string, v: string, pattern: string)
    requires pattern != [] && pattern[0] == '`' && NoBacktick(u)
    ensures RemoveAll(u + v, pattern) == u + RemoveAll(v, pattern)
    decreases |u|
  {
    if u != [] {
      assert (u + v)[0] == u[0];
      assert (u + v)[1..] == u[1..] + v;
      RemoveAllSkipsPlainPrefix(u[1..], v, pattern);
    } else {
      assert u + v == v;
    }
  }

  /** A reply wrapped in a json code block comes back unchanged: stripping undoes the wrapping. */
  lemma StripFencesRoundTrip(body: string)
    requires body != [] && NoBacktick(body)
    requires !IsJavaBlank(body[0]) && !IsJavaBlank(body[|body| - 1])
    ensures StripFences(JsonFence + "\n" + body + "\n" + Fence) == body
  {
    var u := "\n" + body + "\n";
    var text := JsonFence + u + Fence;
    assert JsonFence + "\n" + body + "\n" + Fence == text;
    assert StartsWith(text, JsonFence);
    assert text[|JsonFence|..] == u + Fence;
    RemoveAllSkipsPlainPrefix(u, Fence, JsonFence);
    assert RemoveAll(Fence, JsonFence) == Fence;
    RemoveAllSkipsPlainPrefix(u, Fence, Fence);
    assert RemoveAll(Fence, Fence) == [];
    assert RemoveAll(RemoveAll(text, JsonFence), Fence) == u;
    assert LeadingBlanks(u) == 1 by {
      assert u[1..] == body + "\n";
    }
    assert u[1..] == body + "\n";
    assert (body + "\n")[..|body|] == body;
    assert WithoutTrailingBlanks(body + "\n") == |body|;
  }

  // ---------------------------------------------------------------- advice

  /** The advice record decoded from the text-generation reply. */
  datatype GeminiResponse = GeminiResponse(analysis: string, keywords: seq<string>, careGuide: seq<CareGuide>)

  /** The advice used when the text-generation call itself fails. */
  const CallFailureAdvice: GeminiResponse := GeminiResponse(
    "AI 분석 서버 연결 지연으로 분석 정보를 불러오지 못했습니다.",
    ["분석 실패"],
    [CareGuide("안내", "잠시 후 다시 시도해주세요.")])

  /** The advice used when the reply cannot be decoded. */
  const ParseFailureAdvice: GeminiResponse := GeminiResponse("분석 결과를 처리하는 중 오류가 발생했습니다.", [], [])

  /** The call failed, or it delivered a reply whose candidate text was found (`Some`) or not (`None`). */
  datatype AdviceReply = CallFailed | Delivered(text: Option<string>)

  /** Decoding the advice JSON; `None` when it is malformed. */
  type AdviceDecoder = string -> Option<GeminiResponse>

  /** `parseGeminiResponse`: the candidate text is stripped of code fences before it is decoded. */
  function ParseGeminiResponse(text: Option<string>, decode: AdviceDecoder): (r: GeminiResponse)
    ensures text.None? ==> r == ParseFailureAdvice
    ensures text.Some? && decode(StripFences(text.value)).None? ==> r == ParseFailureAdvice
    ensures text.Some? && decode(StripFences(text.value)).Some? ==> r == decode(StripFences(text.value)).value
  {
    match text
    case None => ParseFailureAdvice
    case Some(t) =>
      match decode(StripFences(t))
      case None => ParseFailureAdvice
      case Some(g) => g
  }

  /**
   * A reply whose advice is wrapped in a json code block is decoded as the bare advice
   * text would be: the fences and the surrounding line breaks never reach the decoder.
   */
  lemma FencedReplyDecodesBody(body: string, decode: AdviceDecoder)
    requires body != [] && NoBacktick(body)
    requires !IsJavaBlank(body[0]) && !IsJavaBlank(body[|body| - 1])
    ensures decode(body).Some? ==> ParseGeminiResponse(Some(JsonFence + "\n" + body + "\n" + Fence), decode) == decode(body).value
    ensures decode(body).None? ==> ParseGeminiResponse(Some(JsonFence + "\n" + body + "\n" + Fence), decode) == ParseFailureAdvice
  {
    StripFencesRoundTrip(body);
  }

  /** The two fallbacks are told apart: only the call failure carries a keyword and a guide entry. */
  lemma FallbacksDiffer()
    ensures CallFailureAdvice != ParseFailureAdvice
    ensures |CallFailureAdvice.keywords| == 1 && |CallFailureAdvice.careGuide| == 1
    ensures ParseFailureAdvice.keywords == [] && ParseFailureAdvice.careGuide == []
  {
  }

  /** Which side of the ideal an issue's current value lies on. */
  datatype Direction = Higher | Lower

  /** One line of the prompt's sensor table: absent averages are printed as 0. */
  datatype SensorLine = SensorLine(sensorName: string, current: real, ideal: real)

  /** One line of the prompt's issue list. */
  datatype IssueLine = IssueLine(sensorName: string, direction: Direction, current: real, ideal: real)

  /** What the prompt is built from (its wording is not modelled). */
  datatype AdviceRequest = AdviceRequest(
    plantName: string, level: string, caption: string, userDescription: string,
    sensorLines: seq<SensorLine>, issueLines: seq<IssueLine>)

  /** The text-generation service. */
  type Advisor = AdviceRequest -> AdviceReply

  function SensorLineOf(s: SensorComparison): SensorLine {
    SensorLine(s.sensorName, s.similarAvg.GetOr(0.0), s.betterAvg.GetOr(0.0))
  }

  function IssueLineOf(s: SensorComparison): IssueLine {
    var sim := s.similarAvg.GetOr(0.0);
    var better := s.betterAvg.GetOr(0.0);
    IssueLine(s.sensorName, if sim - better > 0.0 then Higher else Lower, sim, better)
  }

  /** The sensor-table loop of `createSystemPrompt`. */
  method SensorLines(all: seq<SensorComparison>) returns (lines: seq<SensorLine>)
    ensures |lines| == |all|
    ensures forall i :: 0 <= i < |all| ==> lines[i] == SensorLineOf(all[i])
  {
    lines := [];
    for i := 0 to |all|
      invariant |lines| == i
      invariant forall j :: 0 <= j < i ==> lines[j] == SensorLineOf(all[j])
    {
      var sim := all[i].similarAvg.GetOr(0.0);
      var better := all[i].betterAvg.GetOr(0.0);
      lines := lines + [SensorLine(all[i].sensorName, sim, better)];
    }
  }

  /** The issue loop of `createSystemPrompt`. */
  method IssueLines(issues: seq<SensorComparison>) returns (lines: seq<IssueLine>)
    ensures |lines| == |issues|
    ensures forall i :: 0 <= i < |issues| ==> lines[i] == IssueLineOf(issues[i])
  {
    lines := [];
    for i := 0 to |issues|
      invariant |lines| == i
      invariant forall j :: 0 <= j < i ==> lines[j] == IssueLineOf(issues[j])
    {
      var sim := issues[i].similarAvg.GetOr(0.0);
      var better := issues[i].betterAvg.GetOr(0.0);
      var diff := sim - better;
      var status := if diff > 0.0 then Higher else Lower;
      lines := lines + [IssueLine(issues[i].sensorName, status, sim, better)];
    }
  }

  /**
   * An issue is tagged Higher exactly when its current value exceeds the ideal; a tie
   * is tagged Lower. The prompt prints a missing better average as an ideal of 0,
   * whereas scoring takes the current value as the ideal.
   */
  lemma IssueDirection(s: SensorComparison)
    ensures IssueLineOf(s).direction == Higher <==> IssueLineOf(s).current > IssueLineOf(s).ideal
    ensures Complete(s) && s.similarAvg == s.betterAvg ==> IssueLineOf(s).direction == Lower
    ensures s.betterAvg.None? ==> SensorLineOf(s).ideal == 0.0 && Ideal(s) == Current(s)
  {
  }

  function Map<A, B>(f: A -> B, s: seq<A>): (r: seq<B>)
    ensures |r| == |s| && forall i :: 0 <= i < |s| ==> r[i] == f(s[i])
  {
    seq(|s|, i requires 0 <= i < |s| => f(s[i]))
  }

  /** What the prompt for the given report inputs is built from. */
  function AdviceRequestOf(plantName: string, level: string, caption: string, userDescription: string,
                           sensors: seq<SensorComparison>): AdviceRequest {
    AdviceRequest(plantName, level, caption, userDescription,
      Map(SensorLineOf, sensors), Map(IssueLineOf, FindTopIssues(sensors)))
  }

  /** `askGeminiForAdvice`: a failed call gets the call-failure advice, a delivered reply is parsed. */
  function AskGeminiForAdvice(request: AdviceRequest, advisor: Advisor, decode: AdviceDecoder): (r: GeminiResponse)
    ensures advisor(request).CallFailed? ==> r == CallFailureAdvice
    ensures advisor(request).Delivered? && advisor(request).text.None? ==> r == ParseFailureAdvice
    ensures advisor(request).Delivered? && advisor(request).text.Some? ==>
      r == ParseGeminiResponse(advisor(request).text, decode)
    ensures advisor(request).Delivered? ==> r != CallFailureAdvice || decode(StripFences(advisor(request).text.value)) == Some(CallFailureAdvice)
  {
    match advisor(request)
    case CallFailed => CallFailureAdvice
    case Delivered(text) => ParseGeminiResponse(text, decode)
  }

  // ---------------------------------------------------------------- report

  /**
   * `generateReport`, taking the analysis-log identifier first as its caller does:
   * scores per row, the overall score from those scores, the top issues fed to the
   * advice request, and the advice (or its fallback) copied into the report.
   */
  method GenerateReport(logId: int, plantName: string, level: string, caption: string, userDescription: string,
                        similarImages: seq<string>, sensors: seq<SensorComparison>,
                        advisor: Advisor, decode: AdviceDecoder)
    returns (report: PlantReport)
    ensures report.logId == logId && report.plantName == plantName
    ensures report.caption == caption && report.similarImages == similarImages
    ensures |report.metricScores| == |sensors|
    ensures forall i :: 0 <= i < |sensors| ==> report.metricScores[i] == MetricScoreOf(sensors[i])
    ensures report.overallScore == OverallScore(level, report.metricScores)
    ensures var advice := AskGeminiForAdvice(AdviceRequestOf(plantName, level, caption, userDescription, sensors), advisor, decode);
      report.analysis == advice.analysis && report.keywords == advice.keywords && report.careGuide == advice.careGuide
  {
    var metricScores := CalculateMetricScores(sensors);
    var overallScore := OverallScore(level, metricScores);
    var topIssues := FindTopIssues(sensors);
    var sensorLines := SensorLines(sensors);
    var issueLines := IssueLines(topIssues);
    var request := AdviceRequest(plantName, level, caption, userDescription, sensorLines, issueLines);
    assert request == AdviceRequestOf(plantName, level, caption, userDescription, sensors);
    var advice := AskGeminiForAdvice(request, advisor, decode);
    report := PlantReport(logId, plantName, overallScore, metricScores, caption,
                          advice.analysis, advice.keywords, advice.careGuide, similarImages);
  }
}
