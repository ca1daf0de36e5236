/**
 * The Python prototype of the retrieval flow (`retrieval_overall_flow.py`): growth-level
 * normalisation, the column-wise mean, the higher/lower level split with its two
 * cohort queries, and the rule table that turns the gap between the similar-sample
 * mean and the higher-group mean into advice. The vector database is the same
 * query oracle as in the Java service; a failed query raises, which is a failure here.
 */
module RetrievalFlow {
  import opened Wrappers
  import opened Numerics
  import opened Text
  import opened Vectors
  import MilvusService

  /** The rank table's keys in declaration order, the order Python iterates them in. */
  const DeclarationOrder: seq<string> := ["DIE", "Low", "Medium", "High"]

  /** Default number of records fetched per query. */
  const DefaultTopK: nat := 10

  datatype FlowFault =
    | QueryRaised(message: string)  // the database call raised
    | RaggedVectors                 // vectors of different lengths cannot be stacked into one array
    | MeanTooShort                  // a mean has fewer entries than there are sensor fields

  // ---------------------------------------------------------------- growth rank

  /** `growth_rank`: strips, capitalises, then looks the level up, -1 when it is unknown. */
  function PyGrowthRank(level: string): int {
    MilvusService.Rank(Capitalize(PyStrip(level)))
  }

  /** A capitalised string never has an upper-case letter after its first character, so it is never "DIE". */
  lemma CapitalizedIsNeverDie(s: string)
    ensures Capitalize(s) != "DIE"
  {
    if |s| == 3 {
      assert Capitalize(s)[1] == LowerChar(s[1]);
    }
  }

  /**
   * The rank is -1 or one of 1, 2, 3, never 0: the lowest level cannot be named, so a
   * dead plant is ranked as unknown.
   */
  lemma PyGrowthRankNeverZero(level: string)
    ensures PyGrowthRank(level) != 0
    ensures -1 <= PyGrowthRank(level) <= 3
  {
    var c := Capitalize(PyStrip(level));
    CapitalizedIsNeverDie(PyStrip(level));
    MilvusService.RankZeroIsDie(c);
  }

  lemma PyStripKeeps(s: string)
    requires s != [] && !IsPySpace(s[0]) && !IsPySpace(s[|s| - 1])
    ensures PyStrip(s) == s
  {
  }

  /** A string already in capitalised form is left as it is. */
  lemma CapitalizeKeeps(s: string)
    requires s != [] && !('a' <= s[0] <= 'z')
    requires forall k :: 1 <= k < |s| ==> !('A' <= s[k] <= 'Z')
    ensures Capitalize(s) == s
  {
    var r := Capitalize(s);
    forall k | 0 <= k < |s|
      ensures r[k] == s[k]
    {
    }
  }

  /** The other levels are recognised in their canonical spelling, just as the Java table does. */
  lemma CanonicalRank(level: string)
    requires level in MilvusService.GrowthRank && level != "DIE"
    ensures PyGrowthRank(level) == MilvusService.Rank(level)
  {
    CanonicalForm(level);
  }

  /** Stripping and capitalising leave a table key other than "DIE" unchanged. */
  lemma CanonicalForm(level: string)
    requires level in MilvusService.GrowthRank && level != "DIE"
    ensures Capitalize(PyStrip(level)) == level
  {
    KeyStripped(level);
    KeyCapitalized(level);
  }

  lemma KeyStripped(level: string)
    requires level in MilvusService.GrowthRank
    ensures PyStrip(level) == level
  {
    assert level == "DIE" || level == "Low" || level == "Medium" || level == "High";
    PyStripKeeps(level);
  }

  lemma KeyCapitalized(level: string)
    requires level in MilvusService.GrowthRank && level != "DIE"
    ensures Capitalize(level) == level
  {
    assert level == "Low" || level == "Medium" || level == "High";
    CapitalizeKeeps(level);
  }

  lemma StripPaddedLow()
    ensures PyStrip(" LOW ") == "LOW"
  {
    StripStartPadded();
    StripEndPadded();
  }

  lemma StripStartPadded()
    ensures PyStripStart(" LOW ") == "LOW "
  {
    var padded := " LOW ";
    assert IsPySpace(padded[0]) && padded[1..] == "LOW ";
    StripStartKeeps("LOW ");
  }

  lemma StripStartKeeps(s: string)
    requires s != [] && !IsPySpace(s[0])
    ensures PyStripStart(s) == s
  {
  }

  lemma StripEndPadded()
    ensures PyStripEnd("LOW ") == "LOW"
  {
    var t := "LOW ";
    assert IsPySpace(t[3]) && t[..3] == "LOW";
    assert PyStripEnd("LOW") == "LOW";
  }

  lemma CapitalizeLow()
    ensures Capitalize("LOW") == "Low"
  {
    var low := Capitalize("LOW");
    assert low[0] == 'L' && low[1] == 'o' && low[2] == 'w';
  }

  /** Surrounding blanks and letter case do not matter: " LOW " is rank 1. */
  lemma PaddedUpperCaseLow()
    ensures PyGrowthRank(" LOW ") == 1
  {
    StripPaddedLow();
    CapitalizeLow();
  }

  lemma StripDie()
    ensures PyStrip("DIE") == "DIE"
  {
    PyStripKeeps("DIE");
  }

  lemma CapitalizedDieUnknown()
    ensures MilvusService.Rank(Capitalize("DIE")) == -1
  {
    CapitalizedIsNeverDie("DIE");
    MilvusService.RankByInitial(Capitalize("DIE"));
  }

  /** The lowest level in its canonical spelling is not recognised. */
  lemma DieIsUnknown()
    ensures PyGrowthRank("DIE") == -1
  {
    StripDie();
    CapitalizedDieUnknown();
  }

  // ---------------------------------------------------------------- higher/lower split

  lemma DeclarationOrderEnumerates()
    ensures MilvusService.IsRankEnumeration(DeclarationOrder)
  {
  }

  function HigherLevels(level: string): seq<string> {
    MilvusService.LevelsAbove(DeclarationOrder, PyGrowthRank(level))
  }

  function LowerLevels(level: string): seq<string> {
    MilvusService.LevelsBelow(DeclarationOrder, PyGrowthRank(level))
  }

  /** Each level's rank is its position in the declaration order. */
  lemma DeclarationRanks()
    ensures forall k :: 0 <= k < |DeclarationOrder| ==>
      DeclarationOrder[k] in MilvusService.GrowthRank && MilvusService.GrowthRank[DeclarationOrder[k]] == k
  {
    var g := MilvusService.GrowthRank;
    assert g["DIE"] == 0 && g["Low"] == 1 && g["Medium"] == 2 && g["High"] == 3;
  }

  /** In a listing sorted by rank, the levels above a rank are a suffix of it. */
  lemma {:induction false} AboveIsSuffix(keys: seq<string>, rank: int, n: nat)
    requires n <= |keys| && forall k :: 0 <= k < |keys| ==> keys[k] in MilvusService.GrowthRank
    requires forall k :: 0 <= k < n ==> MilvusService.GrowthRank[keys[k]] <= rank
    requires forall k :: n <= k < |keys| ==> MilvusService.GrowthRank[keys[k]] > rank
    ensures MilvusService.LevelsAbove(keys, rank) == keys[n..]
    decreases |keys|
  {
    if keys != [] {
      if n == 0 {
        AboveIsSuffix(keys[1..], rank, 0);
        assert keys == [keys[0]] + keys[1..];
      } else {
        AboveIsSuffix(keys[1..], rank, n - 1);
        assert keys[1..][n - 1..] == keys[n..];
      }
    }
  }

  /** In a listing sorted by rank, the levels below a rank are a prefix of it. */
  lemma {:induction false} BelowIsPrefix(keys: seq<string>, rank: int, n: nat)
    requires n <= |keys| && forall k :: 0 <= k < |keys| ==> keys[k] in MilvusService.GrowthRank
    requires forall k :: 0 <= k < n ==> MilvusService.GrowthRank[keys[k]] < rank
    requires forall k :: n <= k < |keys| ==> MilvusService.GrowthRank[keys[k]] >= rank
    ensures MilvusService.LevelsBelow(keys, rank) == keys[..n]
    decreases |keys|
  {
    if keys != [] {
      if n == 0 {
        BelowIsPrefix(keys[1..], rank, 0);
      } else {
        BelowIsPrefix(keys[1..], rank, n - 1);
        assert [keys[0]] + keys[1..][..n - 1] == keys[..n];
      }
    }
  }

  /** The levels above rank `r` in declaration order: all of them for an unknown rank, else those after position `r`. */
  lemma LevelsAboveInOrder(r: int)
    requires -1 <= r <= 3
    ensures MilvusService.LevelsAbove(DeclarationOrder, r) == DeclarationOrder[r + 1..]
  {
    DeclarationRanks();
    AboveIsSuffix(DeclarationOrder, r, r + 1);
  }

  /** The levels below rank `r` in declaration order: those before position `r`, none for an unknown rank. */
  lemma LevelsBelowInOrder(r: int)
    requires 0 <= r <= 3
    ensures MilvusService.LevelsBelow(DeclarationOrder, r) == DeclarationOrder[..r]
  {
    DeclarationRanks();
    BelowIsPrefix(DeclarationOrder, r, r);
  }

  lemma NothingBelowUnknown()
    ensures MilvusService.LevelsBelow(DeclarationOrder, -1) == []
  {
    DeclarationRanks();
    BelowIsPrefix(DeclarationOrder, -1, 0);
  }

  /**
   * The split in declaration order: a known level above the lowest has the levels
   * ranked above it as higher and the ones below it as lower; an unknown level, "DIE"
   * included, has every level as higher and none as lower.
   */
  lemma LevelSplit(level: string)
    ensures PyGrowthRank(level) == -1 ==> HigherLevels(level) == DeclarationOrder && LowerLevels(level) == []
    ensures PyGrowthRank(level) == 1 ==> HigherLevels(level) == ["Medium", "High"] && LowerLevels(level) == ["DIE"]
    ensures PyGrowthRank(level) == 2 ==> HigherLevels(level) == ["High"] && LowerLevels(level) == ["DIE", "Low"]
    ensures PyGrowthRank(level) == 3 ==> HigherLevels(level) == [] && LowerLevels(level) == ["DIE", "Low", "Medium"]
  {
    var r := PyGrowthRank(level);
    PyGrowthRankNeverZero(level);
    LevelsAboveInOrder(r);
    if r == -1 {
      NothingBelowUnknown();
    } else {
      LevelsBelowInOrder(r);
    }
    DeclarationSlices();
  }

  /** The suffixes and prefixes of the declaration order, written out. */
  lemma DeclarationSlices()
    ensures DeclarationOrder[0..] == DeclarationOrder
    ensures DeclarationOrder[2..] == ["Medium", "High"] && DeclarationOrder[3..] == ["High"] && DeclarationOrder[4..] == []
    ensures DeclarationOrder[..1] == ["DIE"] && DeclarationOrder[..2] == ["DIE", "Low"]
    ensures DeclarationOrder[..3] == ["DIE", "Low", "Medium"]
  {
  }

  /** The query filter of one group, the same text the Java service builds. */
  function GroupExpr(plantName: string, levels: seq<string>): string {
    MilvusService.FilterExpr(plantName, levels)
  }

  /** One group's records: no query at all for an empty level list. */
  function GroupRows(plantName: string, levels: seq<string>, topK: nat, query: MilvusService.QueryIndex)
    : Result<seq<SensorVector>, FlowFault>
  {
    if levels == [] then Success([])
    else
      var reply := query(MilvusService.QueryRequest(GroupExpr(plantName, levels), topK));
      if reply.status != MilvusService.SuccessStatus then Failure(QueryRaised(reply.message))
      else Success(reply.rows)
  }

  /** The `positive` and `negative` entries of the result. */
  datatype GrowthGroups = GrowthGroups(positive: seq<SensorVector>, negative: seq<SensorVector>)

  function GrowthGroupsOf(plantName: string, level: string, topK: nat, query: MilvusService.QueryIndex)
    : Result<GrowthGroups, FlowFault>
  {
    match GroupRows(plantName, HigherLevels(level), topK, query)
    case Failure(e) => Failure(e)
    case Success(pos) =>
      match GroupRows(plantName, LowerLevels(level), topK, query)
      case Failure(e) => Failure(e)
      case Success(neg) => Success(GrowthGroups(pos, neg))
  }

  /** `search_growth_groups`: both entries start empty and are filled only when their level list is not. */
  method SearchGrowthGroups(plantName: string, level: string, topK: nat, query: MilvusService.QueryIndex)
    returns (r: Result<GrowthGroups, FlowFault>)
    ensures r == GrowthGroupsOf(plantName, level, topK, query)
  {
    var userRank := PyGrowthRank(level);
    var higher := MilvusService.LevelsAbove(DeclarationOrder, userRank);
    var lower := MilvusService.LevelsBelow(DeclarationOrder, userRank);
    var results := GrowthGroups([], []);
    if higher != [] {
      var reply := query(MilvusService.QueryRequest(GroupExpr(plantName, higher), topK));
      if reply.status != MilvusService.SuccessStatus {
        return Failure(QueryRaised(reply.message));
      }
      results := results.(positive := reply.rows);
    }
    if lower != [] {
      var reply := query(MilvusService.QueryRequest(GroupExpr(plantName, lower), topK));
      if reply.status != MilvusService.SuccessStatus {
        return Failure(QueryRaised(reply.message));
      }
      results := results.(negative := reply.rows);
    }
    return Success(results);
  }

  /** A group's query is the service's cohort query; the two agree on every answer the database gives. */
  lemma GroupRowsIsCohort(plantName: string, levels: seq<string>, topK: nat, query: MilvusService.QueryIndex)
    ensures GroupRows(plantName, levels, topK, query).Success? <==> MilvusService.Cohort(plantName, levels, topK, query).Success?
    ensures GroupRows(plantName, levels, topK, query).Success? ==>
      GroupRows(plantName, levels, topK, query).value == MilvusService.Cohort(plantName, levels, topK, query).value
  {
  }

  /**
   * For a level given in canonical form other than "DIE" the prototype asks the same
   * queries as the Java service listing the levels in declaration order, and gets the
   * same groups whenever the database answers.
   */
  lemma SameGroupsAsService(plantName: string, level: string, topK: nat, query: MilvusService.QueryIndex)
    requires level in MilvusService.GrowthRank && level != "DIE"
    ensures GrowthGroupsOf(plantName, level, topK, query).Success? <==>
            MilvusService.GroupsOf(plantName, level, topK, DeclarationOrder, query).Success?
    ensures GrowthGroupsOf(plantName, level, topK, query).Success? ==>
      && GrowthGroupsOf(plantName, level, topK, query).value.positive == MilvusService.GroupsOf(plantName, level, topK, DeclarationOrder, query).value.better
      && GrowthGroupsOf(plantName, level, topK, query).value.negative == MilvusService.GroupsOf(plantName, level, topK, DeclarationOrder, query).value.worse
  {
    CanonicalRank(level);
    var higher, lower := HigherLevels(level), LowerLevels(level);
    assert higher == MilvusService.BetterLevels(DeclarationOrder, level);
    assert lower == MilvusService.WorseLevels(DeclarationOrder, level);
    GroupRowsIsCohort(plantName, higher, topK, query);
    GroupRowsIsCohort(plantName, lower, topK, query);
  }

  /** For "DIE" the prototype queries every level as the higher group, the service only the three above it. */
  lemma DieDiffersFromService()
    ensures HigherLevels("DIE") == ["DIE", "Low", "Medium", "High"]
    ensures MilvusService.BetterLevels(DeclarationOrder, "DIE") == ["Low", "Medium", "High"]
  {
    DieIsUnknown();
    LevelsAboveInOrder(-1);
    LevelsAboveInOrder(0);
    DeclarationSlices();
    assert DeclarationOrder[1..] == ["Low", "Medium", "High"];
  }

  // ---------------------------------------------------------------- mean

  /** Every vector has the length of the first. */
  predicate Uniform(vectors: seq<SensorVector>) {
    forall k :: 0 <= k < |vectors| ==> |vectors[k]| == |vectors[0]|
  }

  /** `vector_mean`: absent for no vectors, the column-wise mean of a rectangular stack. */
  function VectorMean(vectors: seq<SensorVector>): (r: Result<Option<SensorVector>, FlowFault>)
    ensures r.Success? && r.value.Some? ==> vectors != [] && |r.value.value| == |vectors[0]|
  {
    if vectors == [] then Success(None)
    else if !Uniform(vectors) then Failure(RaggedVectors)
    else Success(Some(ColumnMean(vectors, |vectors[0]|)))
  }

  /**
   * The mean is absent exactly for no vectors; the mean of copies of one vector is that
   * vector; and on rectangular input it agrees with the Java service's average.
   */
  lemma VectorMeanProperties(vectors: seq<SensorVector>, v: SensorVector)
    ensures VectorMean(vectors) == Success(None) <==> vectors == []
    ensures vectors != [] && (forall k :: 0 <= k < |vectors| ==> vectors[k] == v) ==> VectorMean(vectors) == Success(Some(v))
    ensures Uniform(vectors) ==>
      VectorMean(vectors).Success? && MilvusService.Average(vectors).Success? &&
      VectorMean(vectors).value == MilvusService.Average(vectors).value
  {
    if vectors != [] && (forall k :: 0 <= k < |vectors| ==> vectors[k] == v) {
      MeanOfIdentical(vectors, v);
    }
  }

  // ---------------------------------------------------------------- advice rules

  datatype AdviceKind =
    | Cooler     // temperature too high
    | Warmer     // temperature too low
    | Humidify   // humidity too low
    | Ventilate  // humidity too high
    | AdjustPH   // pH far off
    | Dilute     // fertiliser concentration too high

  /** One advice message: the field it is about, its position in the field list, the rule, the rounded gap. */
  datatype Advice = Advice(index: nat, field: string, kind: AdviceKind, diff: real)

  /** The rule table for one field, current value `c` against the higher-group value `p`; the first matching rule wins. */
  function AdviceKindFor(key: string, c: real, p: real): Option<AdviceKind> {
    var diff := PyRound2(c - p);
    if Abs(diff) < 0.1 then None
    else if Contains(key, "Temp") && c > p then Some(Cooler)
    else if Contains(key, "Temp") && c < p then Some(Warmer)
    else if Contains(key, "Humidity") && c < p then Some(Humidify)
    else if Contains(key, "Humidity") && c > p then Some(Ventilate)
    else if Contains(key, "PH") && Abs(diff) > 0.3 then Some(AdjustPH)
    else if Contains(key, "EC") && c > p + 0.5 then Some(Dilute)
    else None
  }

  /** The advice for field `i`, if a rule fires for it. */
  function AdviceAt(curr: seq<real>, pos: seq<real>, fields: seq<string>, i: nat): (r: Option<Advice>)
    requires i < |fields| <= |curr| && |fields| <= |pos|
    ensures r.Some? ==> r.value.index == i && r.value.field == fields[i]
  {
    match AdviceKindFor(fields[i], curr[i], pos[i])
    case None => None
    case Some(k) => Some(Advice(i, fields[i], k, PyRound2(curr[i] - pos[i])))
  }

  /** The advice for the first `n` fields, in field order. */
  function Explanation(curr: seq<real>, pos: seq<real>, fields: seq<string>, n: nat): (r: seq<Advice>)
    requires n <= |fields| <= |curr| && |fields| <= |pos|
  {
    if n == 0 then []
    else
      var rest := Explanation(curr, pos, fields, n - 1);
      match AdviceAt(curr, pos, fields, n - 1)
      case None => rest
      case Some(a) => rest + [a]
  }

  /** `explain_sensor_diff`. */
  method ExplainSensorDiff(curr: seq<real>, pos: seq<real>, fields: seq<string>) returns (advice: seq<Advice>)
    requires |fields| <= |curr| && |fields| <= |pos|
    ensures advice == Explanation(curr, pos, fields, |fields|)
  {
    advice := [];
    for i := 0 to |fields|
      invariant advice == Explanation(curr, pos, fields, i)
    {
      var c, p := curr[i], pos[i];
      var diff := PyRound2(c - p);
      if Abs(diff) < 0.1 {
        continue;
      }
      var key := fields[i];
      if Contains(key, "Temp") && c > p {
        advice := advice + [Advice(i, key, Cooler, diff)];
      } else if Contains(key, "Temp") && c < p {
        advice := advice + [Advice(i, key, Warmer, diff)];
      } else if Contains(key, "Humidity") && c < p {
        advice := advice + [Advice(i, key, Humidify, diff)];
      } else if Contains(key, "Humidity") && c > p {
        advice := advice + [Advice(i, key, Ventilate, diff)];
      } else if Contains(key, "PH") && Abs(diff) > 0.3 {
        advice := advice + [Advice(i, key, AdjustPH, diff)];
      } else if Contains(key, "EC") && c > p + 0.5 {
        advice := advice + [Advice(i, key, Dilute, diff)];
      }
    }
  }

  /**
   * At most one message per field, in field order: the indices strictly increase and
   * stay below `n`, and each message is the advice its field's rule gives.
   */
  lemma {:induction false} ExplanationOrdered(curr: seq<real>, pos: seq<real>, fields: seq<string>, n: nat)
    requires n <= |fields| <= |curr| && |fields| <= |pos|
    ensures IndicesBelow(Explanation(curr, pos, fields, n), n)
    ensures forall a :: 0 <= a < |Explanation(curr, pos, fields, n)| ==>
      AdviceAt(curr, pos, fields, Explanation(curr, pos, fields, n)[a].index) == Some(Explanation(curr, pos, fields, n)[a])
  {
    if n > 0 {
      ExplanationOrdered(curr, pos, fields, n - 1);
      var rest := Explanation(curr, pos, fields, n - 1);
      var r := Explanation(curr, pos, fields, n);
      match AdviceAt(curr, pos, fields, n - 1)
      case None =>
        assert r == rest;
      case Some(x) =>
        assert r == rest + [x];
        assert forall a :: 0 <= a < |rest| ==> r[a] == rest[a];
        assert r[|rest|] == x && x.index == n - 1;
    }
  }

  /** Indices strictly increase and stay below `n`. */
  predicate IndicesBelow(r: seq<Advice>, n: nat) {
    && (forall a, b :: 0 <= a < b < |r| ==> r[a].index < r[b].index)
    && (forall a :: 0 <= a < |r| ==> r[a].index < n)
  }

  /** A field whose rule fires is never left out. */
  lemma {:induction false} ExplanationComplete(curr: seq<real>, pos: seq<real>, fields: seq<string>, n: nat, i: nat)
    requires n <= |fields| <= |curr| && |fields| <= |pos|
    requires i < n && AdviceAt(curr, pos, fields, i).Some?
    ensures AdviceAt(curr, pos, fields, i).value in Explanation(curr, pos, fields, n)
  {
    if i < n - 1 {
      ExplanationComplete(curr, pos, fields, n - 1, i);
    }
  }

  /**
   * What each rule means: temperature advice goes the opposite way to the gap, humidity
   * advice too, pH advice needs a gap above 0.3, dilution a current value more than
   * 0.5 above; no rule fires on a rounded gap below 0.1, and a temperature field whose
   * gap reaches 0.1 always gets temperature advice.
   */
  lemma AdviceRules(key: string, c: real, p: real)
    ensures var k := AdviceKindFor(key, c, p);
      && (Abs(PyRound2(c - p)) < 0.1 ==> k.None?)
      && (k == Some(Cooler) ==> Contains(key, "Temp") && c > p)
      && (k == Some(Warmer) ==> Contains(key, "Temp") && c < p)
      && (k == Some(Humidify) ==> Contains(key, "Humidity") && c < p)
      && (k == Some(Ventilate) ==> Contains(key, "Humidity") && c > p)
      && (k == Some(AdjustPH) ==> Contains(key, "PH") && Abs(PyRound2(c - p)) > 0.3)
      && (k == Some(Dilute) ==> Contains(key, "EC") && c > p + 0.5)
      && (Contains(key, "Temp") && Abs(PyRound2(c - p)) >= 0.1 ==>
            k == (if c > p then Some(Cooler) else Some(Warmer)))
  {
    if Abs(PyRound2(c - p)) >= 0.1 {
      assert c != p;
    }
  }

  /** The field name mentions none of the words the advice rules look for. */
  predicate NamesNoRule(key: string) {
    !Contains(key, "Temp") && !Contains(key, "Humidity") && !Contains(key, "PH") && !Contains(key, "EC")
  }

  /** A field naming none of Temp, Humidity, PH and EC never gets advice. */
  lemma QuietField(key: string, c: real, p: real)
    requires NamesNoRule(key)
    ensures AdviceKindFor(key, c, p).None?
  {
  }

  /** A name without the letters T, y, P and E mentions no rule word. */
  lemma NoRuleLetters(key: string)
    requires 'T' !in key && 'y' !in key && 'P' !in key && 'E' !in key
    ensures NamesNoRule(key)
  {
    AbsentChar(key, "Temp", 0);
    AbsentChar(key, "Humidity", 7);
    AbsentChar(key, "PH", 0);
    AbsentChar(key, "EC", 0);
  }

  /** A name without the letters T, y, P and E never gets advice. */
  lemma QuietName(key: string, c: real, p: real)
    requires 'T' !in key && 'y' !in key && 'P' !in key && 'E' !in key
    ensures AdviceKindFor(key, c, p).None?
  {
    NoRuleLetters(key);
    QuietField(key, c, p);
  }

  /** Of the eight sensor fields, CO2 and light never get advice. */
  lemma QuietAirFields(c: real, p: real)
    ensures AdviceKindFor("Co2", c, p).None? && AdviceKindFor("Quantum", c, p).None?
  {
    QuietName("Co2", c, p);
    QuietName("Quantum", c, p);
  }

  /** Nor do the two soil-moisture channels, whose names abbreviate "Humidity". */
  lemma QuietSoilMoisture(c: real, p: real)
    ensures AdviceKindFor("HighSoilHumi", c, p).None? && AdviceKindFor("LowSoilHumi", c, p).None?
  {
    QuietName("HighSoilHumi", c, p);
    QuietName("LowSoilHumi", c, p);
  }

  // ---------------------------------------------------------------- compare environment

  /** Indexing a present mean at every field fails when it is too short. */
  predicate ShortMean(m: Option<SensorVector>) {
    m.Some? && |m.value| < |MilvusService.SensorKeys|
  }

  /**
   * What `compare_environment` returns: the three means are taken first; no advice when
   * the similar or the higher mean is absent; otherwise the advice for the eight fields.
   */
  function EnvironmentAdvice(similar: seq<SensorVector>, positive: seq<SensorVector>, negative: seq<SensorVector>)
    : Result<seq<Advice>, FlowFault>
  {
    match VectorMean(similar)
    case Failure(e) => Failure(e)
    case Success(curr) =>
      match VectorMean(positive)
      case Failure(e) => Failure(e)
      case Success(pos) =>
        match VectorMean(negative)
        case Failure(e) => Failure(e)
        case Success(neg) =>
          if curr.None? || pos.None? then Success([])
          else if ShortMean(curr) || ShortMean(pos) || ShortMean(neg) then Failure(MeanTooShort)
          else Success(Explanation(curr.value, pos.value, MilvusService.SensorKeys, |MilvusService.SensorKeys|))
  }

  /** `compare_environment`. */
  method CompareEnvironment(similar: seq<SensorVector>, positive: seq<SensorVector>, negative: seq<SensorVector>)
    returns (r: Result<seq<Advice>, FlowFault>)
    ensures r == EnvironmentAdvice(similar, positive, negative)
  {
    var currAvg := VectorMean(similar);
    if currAvg.Failure? { return Failure(currAvg.error); }
    var posAvg := VectorMean(positive);
    if posAvg.Failure? { return Failure(posAvg.error); }
    var negAvg := VectorMean(negative);
    if negAvg.Failure? { return Failure(negAvg.error); }
    if currAvg.value.None? || posAvg.value.None? {
      return Success([]);
    }
    var curr, pos, neg := currAvg.value.value, posAvg.value.value, negAvg.value;
    if |curr| < |MilvusService.SensorKeys| || |pos| < |MilvusService.SensorKeys|
       || (neg.Some? && |neg.value| < |MilvusService.SensorKeys|) {
      return Failure(MeanTooShort);
    }
    var advice := ExplainSensorDiff(curr, pos, MilvusService.SensorKeys);
    return Success(advice);
  }

  /**
   * No similar samples or no higher group gives no advice (rectangular input), whereas
   * the Java service in the same situation still lists every channel, with the missing
   * average absent.
   */
  lemma EarlyReturn(similar: seq<SensorVector>, positive: seq<SensorVector>, negative: seq<SensorVector>)
    requires Uniform(similar) && Uniform(positive) && Uniform(negative)
    requires similar == [] || positive == []
    ensures EnvironmentAdvice(similar, positive, negative) == Success([])
  {
  }

  /** With eight-channel similar samples and no higher group, the Java rows keep every channel. */
  lemma ServiceKeepsRowsWithoutBetter(sim: SensorVector)
    requires |sim| == 8
    ensures EnvironmentAdvice([sim], [], []) == Success([])
    ensures MilvusService.Comparisons(Some(sim), None, None).Success?
    ensures |MilvusService.Comparisons(Some(sim), None, None).value| == 8
  {
    assert Uniform([sim]);
    MilvusService.ComparisonRows(Some(sim), None, None);
  }
}
