/**
 * The retrieval half of the pipeline (`MilvusService`): the growth-rank table, the
 * better/worse cohort selection and its filter expression, the cohort averages and
 * the per-channel comparison rows. The vector database is an oracle: a search or a
 * query is a function from the request to the reply the database would send.
 */
module MilvusService {
  import opened Wrappers
  import opened Text
  import opened Vectors
  import opened Numerics
  import opened PlantDto

  /** The growth-rank table; keys must match the stored labels exactly. */
  const GrowthRank: map<string, int> := map["DIE" := 0, "Low" := 1, "Medium" := 2, "High" := 3]

  /** The fixed channel order of every stored sensor vector and of the comparison rows. */
  const SensorKeys: seq<string> :=
    ["AirTemperature", "AirHumidity", "Co2", "Quantum",
     "HighSoilTemp", "HighSoilHumi", "LowSoilTemp", "LowSoilHumi"]

  /** The status code of a successful reply. */
  const SuccessStatus: int := 0
  /** How many similar records the caption search asks for. */
  const SimilarTopK: nat := 5
  /** How many records each cohort query asks for. */
  const CohortLimit: nat := 5
  /** How many similar-image names the analysis reports. */
  const ImageCount: nat := 3

  datatype Fault =
    | SearchFailed(message: string)   // the database answered with a non-success status
    | DataIntegrity                   // a sensor vector too short for the index being read

  datatype SearchRequest = SearchRequest(vector: seq<real>, expr: string, topK: nat)
  datatype Hit = Hit(imageName: string, sensorVector: SensorVector)
  datatype SearchReply = SearchReply(status: int, message: string, hits: seq<Hit>)
  datatype QueryRequest = QueryRequest(expr: string, limit: nat)
  datatype QueryReply = QueryReply(status: int, message: string, rows: seq<SensorVector>)

  /** The nearest-neighbour search and the scalar query of the database. */
  type SearchIndex = SearchRequest -> SearchReply
  type QueryIndex = QueryRequest -> QueryReply

  datatype Groups = Groups(better: seq<SensorVector>, worse: seq<SensorVector>)
  datatype Analysis = Analysis(images: seq<string>, comparisons: seq<SensorComparison>)

  // ---------------------------------------------------------------- ranks and levels

  /** `GROWTH_RANK.getOrDefault(level, -1)`: exact, case-sensitive lookup. */
  function Rank(level: string): (r: int)
    ensures -1 <= r <= 3
    ensures r == -1 <==> level !in GrowthRank
    ensures level == "DIE" ==> r == 0
    ensures level == "Low" ==> r == 1
    ensures level == "Medium" ==> r == 2
    ensures level == "High" ==> r == 3
  {
    if level in GrowthRank then GrowthRank[level] else -1
  }

  /** A level whose initial is not that of a key other than "DIE" is either "DIE" or unknown. */
  lemma RankByInitial(level: string)
    requires level != [] && level[0] != 'L' && level[0] != 'M' && level[0] != 'H'
    ensures level != "DIE" ==> Rank(level) == -1
  {
  }

  /** Only "DIE" has rank 0. */
  lemma RankZeroIsDie(level: string)
    ensures Rank(level) == 0 <==> level == "DIE"
  {
    if level in GrowthRank && level != "DIE" {
      assert level == "Low" || level == "Medium" || level == "High";
    }
  }

  /**
   * A listing of the table's keys, each once. The iteration order of the Java map is
   * unspecified, so every operation that lists levels takes the listing as a parameter.
   */
  predicate IsRankEnumeration(keys: seq<string>) {
    && (forall i :: 0 <= i < |keys| ==> keys[i] in GrowthRank)
    && (forall l :: l in GrowthRank ==> l in keys)
    && (forall i, j :: 0 <= i < j < |keys| ==> keys[i] != keys[j])
  }

  /** The listed levels whose rank exceeds `rank`, in listing order. */
  function LevelsAbove(keys: seq<string>, rank: int): (r: seq<string>)
    ensures forall l :: l in r <==> l in keys && l in GrowthRank && GrowthRank[l] > rank
    ensures |r| <= |keys|
  {
    if keys == [] then []
    else if keys[0] in GrowthRank && GrowthRank[keys[0]] > rank then [keys[0]] + LevelsAbove(keys[1..], rank)
    else LevelsAbove(keys[1..], rank)
  }

  /** The listed levels whose rank is below `rank`, in listing order. */
  function LevelsBelow(keys: seq<string>, rank: int): (r: seq<string>)
    ensures forall l :: l in r <==> l in keys && l in GrowthRank && GrowthRank[l] < rank
    ensures |r| <= |keys|
  {
    if keys == [] then []
    else if keys[0] in GrowthRank && GrowthRank[keys[0]] < rank then [keys[0]] + LevelsBelow(keys[1..], rank)
    else LevelsBelow(keys[1..], rank)
  }

  function BetterLevels(keys: seq<string>, level: string): seq<string> {
    LevelsAbove(keys, Rank(level))
  }

  function WorseLevels(keys: seq<string>, level: string): seq<string> {
    LevelsBelow(keys, Rank(level))
  }

  /**
   * The better and worse level sets never overlap and never hold the query's level;
   * for a known level they cover every other level; an unknown level (rank -1) makes
   * every level "better" and none "worse".
   */
  lemma LevelPartition(keys: seq<string>, level: string)
    requires IsRankEnumeration(keys)
    ensures forall l :: !(l in BetterLevels(keys, level) && l in WorseLevels(keys, level))
    ensures level !in BetterLevels(keys, level) && level !in WorseLevels(keys, level)
    ensures level in GrowthRank ==>
      forall l :: l in GrowthRank && l != level ==> l in BetterLevels(keys, level) || l in WorseLevels(keys, level)
    ensures level !in GrowthRank ==>
      (forall l :: l in BetterLevels(keys, level) <==> l in GrowthRank) && WorseLevels(keys, level) == []
  {
    if level !in GrowthRank {
      NoLevelsBelow(keys, -1);
    }
  }

  /** The top level has no better cohort and the bottom level no worse cohort. */
  lemma ExtremeLevels(keys: seq<string>)
    requires IsRankEnumeration(keys)
    ensures BetterLevels(keys, "High") == []
    ensures WorseLevels(keys, "DIE") == []
  {
    NoLevelsAbove(keys, 3);
    NoLevelsBelow(keys, 0);
  }

  lemma {:induction false} NoLevelsAbove(keys: seq<string>, rank: int)
    requires forall i :: 0 <= i < |keys| ==> keys[i] in GrowthRank && GrowthRank[keys[i]] <= rank
    ensures LevelsAbove(keys, rank) == []
  {
    if keys != [] {
      NoLevelsAbove(keys[1..], rank);
    }
  }

  lemma {:induction false} NoLevelsBelow(keys: seq<string>, rank: int)
    requires forall i :: 0 <= i < |keys| ==> keys[i] in GrowthRank && GrowthRank[keys[i]] >= rank
    ensures LevelsBelow(keys, rank) == []
  {
    if keys != [] {
      NoLevelsBelow(keys[1..], rank);
    }
  }

  // ---------------------------------------------------------------- filter expressions

  function SpeciesExpr(plantName: string): string {
    "plant_name == '" + plantName + "'"
  }

  function LevelClause(level: string): string {
    "growth_level == '" + level + "'"
  }

  function LevelClauses(levels: seq<string>): (r: seq<string>)
    ensures |r| == |levels| && forall i :: 0 <= i < |levels| ==> r[i] == LevelClause(levels[i])
  {
    if levels == [] then [] else [LevelClause(levels[0])] + LevelClauses(levels[1..])
  }

  /** `plant_name == 'P' and (growth_level == 'L1' or ... )`. */
  function FilterExpr(plantName: string, levels: seq<string>): string {
    SpeciesExpr(plantName) + " and (" + Join(LevelClauses(levels), " or ") + ")"
  }

  lemma {:induction false} ContainsAfterPrefix(pre: string, t: string, sub: string)
    requires Contains(t, sub)
    ensures Contains(pre + t, sub)
    decreases |pre|
  {
    if pre != [] {
      assert (pre + t)[1..] == pre[1..] + t;
      ContainsAfterPrefix(pre[1..], t, sub);
      assert Contains((pre + t)[1..], sub);
    } else {
      assert pre + t == t;
    }
  }

  lemma {:induction false} JoinContainsPart(parts: seq<string>, sep: string, i: nat)
    requires i < |parts|
    ensures Contains(Join(parts, sep), parts[i])
    decreases |parts|
  {
    if i == 0 {
      if |parts| == 1 {
        ContainsAt(Join(parts, sep), parts[0], 0);
      } else {
        var j := Join(parts, sep);
        assert j == parts[0] + (sep + Join(parts[1..], sep));
        assert j[0..|parts[0]|] == parts[0];
        ContainsAt(j, parts[0], 0);
      }
    } else {
      JoinContainsPart(parts[1..], sep, i - 1);
      assert Join(parts, sep) == (parts[0] + sep) + Join(parts[1..], sep);
      ContainsAfterPrefix(parts[0] + sep, Join(parts[1..], sep), parts[i]);
    }
  }

  /** The expression names the species and carries one `growth_level == 'L'` clause for every listed level. */
  lemma FilterExprMentionsEveryLevel(plantName: string, levels: seq<string>, i: nat)
    requires i < |levels|
    ensures StartsWith(FilterExpr(plantName, levels), SpeciesExpr(plantName) + " and (")
    ensures Contains(FilterExpr(plantName, levels), LevelClause(levels[i]))
  {
    var pre := SpeciesExpr(plantName) + " and (";
    var mid := Join(LevelClauses(levels), " or ");
    assert FilterExpr(plantName, levels) == pre + (mid + ")");
    assert (pre + (mid + ")"))[..|pre|] == pre;
    JoinContainsPart(LevelClauses(levels), " or ", i);
    assert Contains(mid, LevelClause(levels[i]));
    assert mid + ")" == mid + [')'];
    ContainsAt(mid + ")", LevelClause(levels[i]), FirstIndexOf(mid, LevelClause(levels[i])));
    ContainsAfterPrefix(pre, mid + ")", LevelClause(levels[i]));
  }

  /** The two levels above "Low", in declaration order, give two clauses joined by " or ". */
  lemma FilterExprTwoLevels(plantName: string, first: string, second: string)
    ensures FilterExpr(plantName, [first, second])
         == SpeciesExpr(plantName) + " and (" + LevelClause(first) + " or " + LevelClause(second) + ")"
  {
    assert LevelClauses([first, second]) == [LevelClause(first), LevelClause(second)];
    assert Join([LevelClause(second)], " or ") == LevelClause(second);
  }

  // ---------------------------------------------------------------- database calls

  /** `handleMilvusError`'s exception message. */
  function FailureMessage(message: string): string {
    "Milvus Operation Failed: " + message
  }

  /**
   * `searchSimilar`: a caption-vector search restricted to one species. A non-success
   * status aborts; an empty hit list is an empty result, not an error.
   */
  function SearchSimilar(vector: seq<real>, plantName: string, topK: nat, search: SearchIndex): (r: Result<seq<Hit>, Fault>)
    ensures var reply := search(SearchRequest(vector, SpeciesExpr(plantName), topK));
      && (r.Failure? <==> reply.status != SuccessStatus)
      && (r.Failure? ==> r.error == SearchFailed(FailureMessage(reply.message)))
      && (r.Success? ==> r.value == reply.hits)
  {
    var reply := search(SearchRequest(vector, SpeciesExpr(plantName), topK));
    if reply.status != SuccessStatus then Failure(SearchFailed(FailureMessage(reply.message)))
    else if reply.hits == [] then Success([])
    else Success(reply.hits)
  }

  /** What `queryByLevels` yields: nothing is asked of the database when there is no level to ask for. */
  function Cohort(plantName: string, levels: seq<string>, limit: nat, query: QueryIndex): Result<seq<SensorVector>, Fault> {
    if levels == [] then Success([])
    else
      var reply := query(QueryRequest(FilterExpr(plantName, levels), limit));
      if reply.status != SuccessStatus then Failure(SearchFailed(FailureMessage(reply.message)))
      else Success(reply.rows)
  }

  /** `queryByLevels`: the sensor vectors of the stored records of one species at the given levels. */
  method QueryByLevels(plantName: string, levels: seq<string>, limit: nat, query: QueryIndex)
    returns (r: Result<seq<SensorVector>, Fault>)
    ensures r == Cohort(plantName, levels, limit, query)
  {
    if levels == [] {
      return Success([]);
    }
    var reply := query(QueryRequest(FilterExpr(plantName, levels), limit));
    if reply.status != SuccessStatus {
      return Failure(SearchFailed(FailureMessage(reply.message)));
    }
    var list: seq<SensorVector> := [];
    var i := 0;
    while i < |reply.rows|
      invariant 0 <= i <= |reply.rows|
      invariant list == reply.rows[..i]
    {
      list := list + [reply.rows[i]];
      i := i + 1;
    }
    assert list == reply.rows;
    return Success(list);
  }

  /** An empty level list yields an empty cohort whatever the database holds. */
  lemma EmptyLevelsNeverQuery(plantName: string, limit: nat, query: QueryIndex)
    ensures Cohort(plantName, [], limit, query) == Success([])
  {
  }

  /** The better cohort first, then the worse one; the first failure aborts. */
  function GroupsOf(plantName: string, level: string, limit: nat, keys: seq<string>, query: QueryIndex): Result<Groups, Fault> {
    match Cohort(plantName, BetterLevels(keys, level), limit, query)
    case Failure(e) => Failure(e)
    case Success(better) =>
      match Cohort(plantName, WorseLevels(keys, level), limit, query)
      case Failure(e) => Failure(e)
      case Success(worse) => Success(Groups(better, worse))
  }

  /** `searchGroups`. */
  method SearchGroups(plantName: string, level: string, limit: nat, keys: seq<string>, query: QueryIndex)
    returns (r: Result<Groups, Fault>)
    ensures r == GroupsOf(plantName, level, limit, keys, query)
  {
    var better := QueryByLevels(plantName, BetterLevels(keys, level), limit, query);
    if better.Failure? {
      return Failure(better.error);
    }
    var worse := QueryByLevels(plantName, WorseLevels(keys, level), limit, query);
    if worse.Failure? {
      return Failure(worse.error);
    }
    return Success(Groups(better.value, worse.value));
  }

  /** "High" always has an empty better cohort and "DIE" an empty worse cohort. */
  lemma ExtremeCohortsEmpty(plantName: string, limit: nat, keys: seq<string>, query: QueryIndex)
    requires IsRankEnumeration(keys)
    ensures GroupsOf(plantName, "High", limit, keys, query).Success? ==> GroupsOf(plantName, "High", limit, keys, query).value.better == []
    ensures GroupsOf(plantName, "DIE", limit, keys, query).Success? ==> GroupsOf(plantName, "DIE", limit, keys, query).value.worse == []
  {
    ExtremeLevels(keys);
  }

  // ---------------------------------------------------------------- averages

  /** What `calcAvg` yields: absent for an empty cohort, a failure when a vector is shorter than the first. */
  function Average(rows: seq<SensorVector>): Result<Option<SensorVector>, Fault> {
    if rows == [] then Success(None)
    else if Covers(rows, |rows[0]|) then Success(Some(ColumnMean(rows, |rows[0]|)))
    else Failure(DataIntegrity)
  }

  /** `calcAvg`: sums the columns of the first record's dimension into an array, then divides by the count. */
  method CalcAvg(rows: seq<SensorVector>) returns (r: Result<Option<SensorVector>, Fault>)
    ensures r == Average(rows)
  {
    if rows == [] {
      return Success(None);
    }
    var dim := |rows[0]|;
    var sum := new real[dim](_ => 0.0);
    var k := 0;
    while k < |rows|
      invariant 0 <= k <= |rows|
      invariant Covers(rows[..k], dim)
      invariant forall i :: 0 <= i < dim ==> sum[i] == ColumnSum(rows[..k], i)
    {
      var v := rows[k];
      if |v| < dim {
        // the Java loop throws IndexOutOfBoundsException at v.get(|v|)
        assert !Covers(rows, dim) by { assert dim > |rows[k]|; }
        return Failure(DataIntegrity);
      }
      AddRow(sum, v);
      forall i | 0 <= i < dim
        ensures sum[i] == ColumnSum(rows[..k + 1], i)
      {
        assert rows[..k + 1][..k] == rows[..k];
      }
      k := k + 1;
    }
    assert rows[..k] == rows;
    var avg: seq<real> := [];
    var i := 0;
    while i < dim
      invariant 0 <= i <= dim
      invariant |avg| == i
      invariant forall j :: 0 <= j < i ==> avg[j] == sum[j] / |rows| as real
    {
      avg := avg + [sum[i] / |rows| as real];
      i := i + 1;
    }
    assert Covers(rows, dim);
    assert avg == ColumnMean(rows, dim);
    return Success(Some(avg));
  }

  /** One pass of the inner loop of `calcAvg`: `sum[i] += v.get(i)` for every column. */
  method AddRow(sum: array<real>, v: SensorVector)
    requires sum.Length <= |v|
    modifies sum
    ensures forall i :: 0 <= i < sum.Length ==> sum[i] == old(sum[i]) + v[i]
  {
    var i := 0;
    while i < sum.Length
      invariant 0 <= i <= sum.Length
      invariant forall j :: 0 <= j < i ==> sum[j] == old(sum[j]) + v[j]
      invariant forall j :: i <= j < sum.Length ==> sum[j] == old(sum[j])
    {
      sum[i] := sum[i] + v[i];
      i := i + 1;
    }
  }

  /**
   * An average is absent exactly when the cohort is empty (never a zero vector);
   * a present one has the first record's dimension; a single record averages to itself.
   */
  lemma AverageProperties(rows: seq<SensorVector>)
    ensures Average(rows) == Success(None) <==> rows == []
    ensures Average(rows).Success? && Average(rows).value.Some? ==> |Average(rows).value.value| == |rows[0]|
    ensures |rows| == 1 ==> Average(rows) == Success(Some(rows[0]))
  {
    if |rows| == 1 {
      MeanOfIdentical(rows, rows[0]);
    }
  }

  // ---------------------------------------------------------------- comparison rows

  /** A present average too short to be read at every channel index. */
  predicate TooShort(avg: Option<SensorVector>) {
    avg.Some? && |avg.value| < |SensorKeys|
  }

  /** Channel `i` of an average, rounded to two decimals; absent when the average is. */
  function RoundedAt(avg: Option<SensorVector>, i: nat): Option<real>
    requires avg.Some? ==> i < |avg.value|
  {
    if avg.Some? then Some(Round2(avg.value[i])) else None
  }

  /** What `compareSensors` yields for the three averages. */
  function Comparisons(sim: Option<SensorVector>, better: Option<SensorVector>, worse: Option<SensorVector>)
    : Result<seq<SensorComparison>, Fault>
  {
    if sim.None? && better.None? && worse.None? then Success([])
    else if TooShort(sim) || TooShort(better) || TooShort(worse) then Failure(DataIntegrity)
    else Success(seq(|SensorKeys|, i requires 0 <= i < |SensorKeys| =>
      SensorComparison(SensorKeys[i], RoundedAt(sim, i), RoundedAt(better, i), RoundedAt(worse, i))))
  }

  /** The row loop of `compareSensors`. */
  method CompareAverages(sim: Option<SensorVector>, better: Option<SensorVector>, worse: Option<SensorVector>)
    returns (r: Result<seq<SensorComparison>, Fault>)
    ensures r == Comparisons(sim, better, worse)
  {
    if sim.None? && better.None? && worse.None? {
      return Success([]);
    }
    var rows: seq<SensorComparison> := [];
    for i := 0 to |SensorKeys|
      invariant |rows| == i
      invariant sim.Some? ==> i <= |sim.value|
      invariant better.Some? ==> i <= |better.value|
      invariant worse.Some? ==> i <= |worse.value|
      invariant forall j :: 0 <= j < i ==>
        rows[j] == SensorComparison(SensorKeys[j], RoundedAt(sim, j), RoundedAt(better, j), RoundedAt(worse, j))
    {
      if (sim.Some? && |sim.value| <= i) || (better.Some? && |better.value| <= i) || (worse.Some? && |worse.value| <= i) {
        // List.get(i) past the end throws
        return Failure(DataIntegrity);
      }
      rows := rows + [SensorComparison(SensorKeys[i], RoundedAt(sim, i), RoundedAt(better, i), RoundedAt(worse, i))];
    }
    assert !(TooShort(sim) || TooShort(better) || TooShort(worse));
    assert rows == Comparisons(sim, better, worse).value;
    return Success(rows);
  }

  /**
   * No data at all gives no rows; otherwise there are exactly eight rows in channel
   * order, a field is absent exactly when its cohort was empty, and a present field is
   * the channel's average rounded to two decimals.
   */
  lemma ComparisonRows(sim: Option<SensorVector>, better: Option<SensorVector>, worse: Option<SensorVector>)
    requires Comparisons(sim, better, worse).Success?
    ensures var rows := Comparisons(sim, better, worse).value;
      && (rows == [] <==> sim.None? && better.None? && worse.None?)
      && (rows != [] ==> |rows| == 8)
      && forall i :: 0 <= i < |rows| ==>
        && rows[i].sensorName == SensorKeys[i]
        && (rows[i].similarAvg.None? <==> sim.None?)
        && (rows[i].betterAvg.None? <==> better.None?)
        && (rows[i].worseAvg.None? <==> worse.None?)
        && (sim.Some? ==> rows[i].similarAvg.value == Round2(sim.value[i]) && Abs(rows[i].similarAvg.value - sim.value[i]) <= 0.005)
        && (better.Some? ==> rows[i].betterAvg.value == Round2(better.value[i]) && Abs(rows[i].betterAvg.value - better.value[i]) <= 0.005)
        && (worse.Some? ==> rows[i].worseAvg.value == Round2(worse.value[i]) && Abs(rows[i].worseAvg.value - worse.value[i]) <= 0.005)
  {
  }

  function HitVectors(hits: seq<Hit>): (r: seq<SensorVector>)
    ensures |r| == |hits| && forall k :: 0 <= k < |hits| ==> r[k] == hits[k].sensorVector
  {
    seq(|hits|, k requires 0 <= k < |hits| => hits[k].sensorVector)
  }

  /** What `compareSensors` yields for the similar hits and the two cohorts. */
  function SensorAnalysis(similar: seq<Hit>, groups: Groups): Result<seq<SensorComparison>, Fault> {
    match Average(HitVectors(similar))
    case Failure(e) => Failure(e)
    case Success(s) =>
      match Average(groups.better)
      case Failure(e) => Failure(e)
      case Success(b) =>
        match Average(groups.worse)
        case Failure(e) => Failure(e)
        case Success(w) => Comparisons(s, b, w)
  }

  /** `compareSensors`. */
  method CompareSensors(similar: seq<Hit>, groups: Groups) returns (r: Result<seq<SensorComparison>, Fault>)
    ensures r == SensorAnalysis(similar, groups)
  {
    var s := CalcAvg(HitVectors(similar));
    if s.Failure? {
      return Failure(s.error);
    }
    var b := CalcAvg(groups.better);
    if b.Failure? {
      return Failure(b.error);
    }
    var w := CalcAvg(groups.worse);
    if w.Failure? {
      return Failure(w.error);
    }
    r := CompareAverages(s.value, b.value, w.value);
  }

  /** The image names of the first `ImageCount` hits, in search order. */
  function TopImages(hits: seq<Hit>): (images: seq<string>)
    ensures |images| == if |hits| < ImageCount then |hits| else ImageCount
    ensures forall i :: 0 <= i < |images| ==> images[i] == hits[i].imageName
  {
    var n := if |hits| < ImageCount then |hits| else ImageCount;
    seq(n, i requires 0 <= i < n => hits[i].imageName)
  }

  /**
   * `searchAndAnalyze`: the similar search (top 5 of the species), the two cohort
   * queries (5 records each), the first three image names and the comparison rows.
   */
  method SearchAndAnalyze(plantName: string, level: string, queryVector: seq<real>, keys: seq<string>,
                          search: SearchIndex, query: QueryIndex)
    returns (r: Result<Analysis, Fault>)
    ensures var reply := search(SearchRequest(queryVector, SpeciesExpr(plantName), SimilarTopK));
      && (reply.status != SuccessStatus ==> r == Failure(SearchFailed(FailureMessage(reply.message))))
      && (reply.status == SuccessStatus ==>
            match GroupsOf(plantName, level, CohortLimit, keys, query)
            case Failure(e) => r == Failure(e)
            case Success(groups) =>
              match SensorAnalysis(reply.hits, groups)
              case Failure(e) => r == Failure(e)
              case Success(rows) => r == Success(Analysis(TopImages(reply.hits), rows)))
  {
    var similar := SearchSimilar(queryVector, plantName, SimilarTopK, search);
    if similar.Failure? {
      return Failure(similar.error);
    }
    var groups := SearchGroups(plantName, level, CohortLimit, keys, query);
    if groups.Failure? {
      return Failure(groups.error);
    }
    var images := TopImages(similar.value);
    var rows := CompareSensors(similar.value, groups.value);
    if rows.Failure? {
      return Failure(rows.error);
    }
    return Success(Analysis(images, rows.value));
  }
}
