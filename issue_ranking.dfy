/**
 * The ranking behind `findTopIssues`: keep the rows that have both a similar and a
 * better average, sort them stably by descending relative deviation, keep three.
 * The deviation is a Java double, so dividing by a zero better-average gives
 * Infinity (or NaN for 0/0) instead of an exception; `Double.compare` ranks NaN
 * above Infinity above every finite value.
 */
module IssueRanking {
  import opened Wrappers
  import opened Numerics
  import opened PlantDto

  /** How many issues the ranking keeps. */
  const TopIssueCount: nat := 3

  /** `|similar - better| / better` as a double. */
  datatype Deviation = Finite(value: real) | Infinite | NotANumber

  /** Both averages are present. */
  predicate Complete(s: SensorComparison) {
    s.similarAvg.Some? && s.betterAvg.Some?
  }

  predicate AllComplete(s: seq<SensorComparison>) {
    forall y :: y in s ==> Complete(y)
  }

  function DeviationOf(s: SensorComparison): Deviation
    requires Complete(s)
  {
    var sim := s.similarAvg.value;
    var better := s.betterAvg.value;
    if better != 0.0 then Finite(Abs(sim - better) / better)
    else if sim == 0.0 then NotANumber   // 0.0 / 0.0
    else Infinite                        // a positive magnitude over 0.0
  }

  /** `Double.compare(a, b) >= 0`. */
  predicate AtLeast(a: Deviation, b: Deviation) {
    match a
    case NotANumber => true
    case Infinite => !b.NotANumber?
    case Finite(x) => b.Finite? && x >= b.value
  }

  /** `Double.compare` is a total order on these values. */
  lemma AtLeastTotalOrder(a: Deviation, b: Deviation, c: Deviation)
    ensures AtLeast(a, a)
    ensures AtLeast(a, b) || AtLeast(b, a)
    ensures AtLeast(a, b) && AtLeast(b, a) ==> a == b
    ensures AtLeast(a, b) && AtLeast(b, c) ==> AtLeast(a, c)
  {
  }

  /** Non-increasing deviation from front to back. */
  predicate Sorted(s: seq<SensorComparison>)
    requires AllComplete(s)
  {
    forall i, j :: 0 <= i < j < |s| ==> AtLeast(DeviationOf(s[i]), DeviationOf(s[j]))
  }

  /** The rows of `s` whose deviation is `d`, in the order of `s`. */
  function WithDeviation(s: seq<SensorComparison>, d: Deviation): seq<SensorComparison>
    requires AllComplete(s)
  {
    if s == [] then []
    else if DeviationOf(s[0]) == d then [s[0]] + WithDeviation(s[1..], d)
    else WithDeviation(s[1..], d)
  }

  /** Stability: rows of equal deviation keep the relative order they had in `original`. */
  ghost predicate KeepsTieOrder(sorted: seq<SensorComparison>, original: seq<SensorComparison>)
    requires AllComplete(sorted) && AllComplete(original)
  {
    forall d :: WithDeviation(sorted, d) == WithDeviation(original, d)
  }

  /** `filter(s -> s.betterAvg() != null && s.similarAvg() != null)`. */
  function Candidates(sensors: seq<SensorComparison>): (r: seq<SensorComparison>)
    ensures AllComplete(r)
    ensures forall y :: y in r <==> y in sensors && Complete(y)
    ensures multiset(r) <= multiset(sensors)
    ensures forall y :: multiset(r)[y] == (if Complete(y) then multiset(sensors)[y] else 0)
  {
    if sensors == [] then []
    else
      assert multiset(sensors) == multiset{sensors[0]} + multiset(sensors[1..]) by {
        assert sensors == [sensors[0]] + sensors[1..];
      }
      if Complete(sensors[0]) then
        var r := [sensors[0]] + Candidates(sensors[1..]);
        assert multiset(r) == multiset{sensors[0]} + multiset(Candidates(sensors[1..]));
        r
      else Candidates(sensors[1..])
  }

  /** A lone row is kept exactly when both its averages are present. */
  lemma CandidatesSingle(y: SensorComparison)
    ensures Candidates([y]) == if Complete(y) then [y] else []
  {
    assert [y][1..] == [];
  }

  /**
   * Filtering keeps input order: the candidates of two runs of rows, one after the
   * other, are the candidates of the first run followed by those of the second.
   */
  lemma {:induction false} CandidatesAppend(a: seq<SensorComparison>, b: seq<SensorComparison>)
    ensures Candidates(a + b) == Candidates(a) + Candidates(b)
    decreases |a|
  {
    if a == [] {
      assert a + b == b;
    } else {
      assert (a + b)[0] == a[0];
      assert (a + b)[1..] == a[1..] + b;
      CandidatesAppend(a[1..], b);
    }
  }

  /** Inserts `x` ahead of the first row it is at least as large as, so it stays ahead of its ties. */
  function Insert(x: SensorComparison, sorted: seq<SensorComparison>): (r: seq<SensorComparison>)
    requires Complete(x) && AllComplete(sorted)
    ensures multiset(r) == multiset(sorted) + multiset{x}
    ensures AllComplete(r)
    ensures |r| == |sorted| + 1
  {
    if sorted == [] then [x]
    else if AtLeast(DeviationOf(x), DeviationOf(sorted[0])) then [x] + sorted
    else
      var r := [sorted[0]] + Insert(x, sorted[1..]);
      assert sorted == [sorted[0]] + sorted[1..];
      assert forall y :: y in r ==> y in multiset(r);
      r
  }

  /** A stable insertion sort by descending deviation (`Stream.sorted` is stable on an ordered stream). */
  function SortByDeviation(s: seq<SensorComparison>): (r: seq<SensorComparison>)
    requires AllComplete(s)
    ensures multiset(r) == multiset(s)
    ensures AllComplete(r)
    ensures |r| == |s|
  {
    if s == [] then []
    else
      assert s == [s[0]] + s[1..];
      Insert(s[0], SortByDeviation(s[1..]))
  }

  lemma {:induction false} InsertSorted(x: SensorComparison, sorted: seq<SensorComparison>)
    requires Complete(x) && AllComplete(sorted) && Sorted(sorted)
    ensures Sorted(Insert(x, sorted))
    decreases |sorted|
  {
    if sorted != [] && !AtLeast(DeviationOf(x), DeviationOf(sorted[0])) {
      var rest := sorted[1..];
      InsertSorted(x, rest);
      var ins := Insert(x, rest);
      var r := [sorted[0]] + ins;
      forall j | 1 <= j < |r|
        ensures AtLeast(DeviationOf(r[0]), DeviationOf(r[j]))
      {
        assert r[j] in multiset(ins);
        if r[j] == x {
          AtLeastTotalOrder(DeviationOf(x), DeviationOf(sorted[0]), DeviationOf(x));
        } else {
          assert r[j] in multiset(rest);
          var k :| 0 <= k < |rest| && rest[k] == r[j];
          assert sorted[k + 1] == r[j];
        }
      }
    } else if sorted != [] {
      var r := [x] + sorted;
      forall i, j | 0 <= i < j < |r|
        ensures AtLeast(DeviationOf(r[i]), DeviationOf(r[j]))
      {
        if i == 0 {
          AtLeastTotalOrder(DeviationOf(x), DeviationOf(sorted[0]), DeviationOf(r[j]));
        }
      }
    }
  }

  lemma {:induction false} SortSorted(s: seq<SensorComparison>)
    requires AllComplete(s)
    ensures Sorted(SortByDeviation(s))
    decreases |s|
  {
    if s != [] {
      SortSorted(s[1..]);
      InsertSorted(s[0], SortByDeviation(s[1..]));
    }
  }

  lemma {:induction false} InsertKeepsTies(x: SensorComparison, sorted: seq<SensorComparison>, d: Deviation)
    requires Complete(x) && AllComplete(sorted)
    ensures WithDeviation(Insert(x, sorted), d)
         == if DeviationOf(x) == d then [x] + WithDeviation(sorted, d) else WithDeviation(sorted, d)
    decreases |sorted|
  {
    if sorted != [] && !AtLeast(DeviationOf(x), DeviationOf(sorted[0])) {
      InsertKeepsTies(x, sorted[1..], d);
      AtLeastTotalOrder(DeviationOf(x), DeviationOf(x), DeviationOf(x));
      var r := [sorted[0]] + Insert(x, sorted[1..]);
      assert r[1..] == Insert(x, sorted[1..]);
    } else if sorted != [] {
      assert ([x] + sorted)[1..] == sorted;
    }
  }

  lemma {:induction false} SortKeepsTies(s: seq<SensorComparison>)
    requires AllComplete(s)
    ensures KeepsTieOrder(SortByDeviation(s), s)
    decreases |s|
  {
    if s != [] {
      SortKeepsTies(s[1..]);
      forall d
        ensures WithDeviation(SortByDeviation(s), d) == WithDeviation(s, d)
      {
        InsertKeepsTies(s[0], SortByDeviation(s[1..]), d);
      }
    }
  }

  /** Filtering by deviation distributes over concatenation. */
  lemma {:induction false} WithDeviationAppend(a: seq<SensorComparison>, b: seq<SensorComparison>, d: Deviation)
    requires AllComplete(a) && AllComplete(b)
    ensures AllComplete(a + b)
    ensures WithDeviation(a + b, d) == WithDeviation(a, d) + WithDeviation(b, d)
    decreases |a|
  {
    if a != [] {
      assert (a + b)[1..] == a[1..] + b;
      WithDeviationAppend(a[1..], b, d);
    } else {
      assert a + b == b;
    }
  }

  /**
   * Two sequences sorted by deviation whose rows of each deviation come in the same
   * order are equal: every stable sort gives the result of this insertion sort.
   */
  lemma {:induction false} StableSortIsUnique(a: seq<SensorComparison>, b: seq<SensorComparison>)
    requires AllComplete(a) && AllComplete(b) && Sorted(a) && Sorted(b)
    requires forall d :: WithDeviation(a, d) == WithDeviation(b, d)
    ensures a == b
    decreases |a|
  {
    if a == [] && b == [] {
    } else if a == [] {
      FirstOfDeviation(b, DeviationOf(b[0]));
      assert false;
    } else if b == [] {
      FirstOfDeviation(a, DeviationOf(a[0]));
      assert false;
    } else {
      var da, db := DeviationOf(a[0]), DeviationOf(b[0]);
      FirstOfDeviation(a, da);
      FirstOfDeviation(b, db);
      MemberOfWithDeviation(b, da);
      MemberOfWithDeviation(a, db);
      AtLeastTotalOrder(da, db, da);
      assert da == db;
      forall d
        ensures WithDeviation(a[1..], d) == WithDeviation(b[1..], d)
      {
        assert WithDeviation(a, d) == WithDeviation(b, d);
        if d == da {
          assert WithDeviation(a, d)[1..] == WithDeviation(a[1..], d);
          assert WithDeviation(b, d)[1..] == WithDeviation(b[1..], d);
        }
      }
      StableSortIsUnique(a[1..], b[1..]);
      assert a == [a[0]] + a[1..] && b == [b[0]] + b[1..];
    }
  }

  /** In a sorted sequence, the first row of the leading deviation heads the tie group of that deviation. */
  lemma FirstOfDeviation(s: seq<SensorComparison>, d: Deviation)
    requires AllComplete(s) && s != [] && DeviationOf(s[0]) == d
    ensures WithDeviation(s, d) != [] && WithDeviation(s, d)[0] == s[0]
  {
  }

  /** A non-empty tie group of a sorted sequence has a deviation no larger than its head's. */
  lemma MemberOfWithDeviation(s: seq<SensorComparison>, d: Deviation)
    requires AllComplete(s) && Sorted(s) && s != []
    ensures WithDeviation(s, d) != [] ==> AtLeast(DeviationOf(s[0]), d)
  {
    if WithDeviation(s, d) != [] {
      var k := MemberIndex(s, d);
      if k != 0 {
        assert AtLeast(DeviationOf(s[0]), DeviationOf(s[k]));
      } else {
        AtLeastTotalOrder(d, d, d);
      }
    }
  }

  /** A position of `s` with deviation `d`, when the tie group is non-empty. */
  function MemberIndex(s: seq<SensorComparison>, d: Deviation): (k: nat)
    requires AllComplete(s) && WithDeviation(s, d) != []
    ensures k < |s| && DeviationOf(s[k]) == d
  {
    if DeviationOf(s[0]) == d then 0 else 1 + MemberIndex(s[1..], d)
  }

  function Take(s: seq<SensorComparison>, n: nat): (r: seq<SensorComparison>)
    ensures |r| == if |s| < n then |s| else n
    ensures r == s[..|r|]
  {
    if |s| < n then s else s[..n]
  }

  /** `findTopIssues`. */
  function FindTopIssues(sensors: seq<SensorComparison>): seq<SensorComparison> {
    Take(SortByDeviation(Candidates(sensors)), TopIssueCount)
  }

  /**
   * The top issues are at most three rows with both averages present, taken from the
   * input (three whenever three qualify), ordered by non-increasing deviation, with
   * equal deviations in input order, and no row left out ranks above a row kept.
   */
  lemma TopIssuesProperties(sensors: seq<SensorComparison>)
    ensures var top := FindTopIssues(sensors);
      var candidates := Candidates(sensors);
      && AllComplete(top)
      && |top| == (if |candidates| < TopIssueCount then |candidates| else TopIssueCount)
      && multiset(top) <= multiset(candidates)
      && Sorted(top)
      && (forall d :: StartsWithSeq(WithDeviation(candidates, d), WithDeviation(top, d)))
      && (forall y, z :: y in multiset(candidates) - multiset(top) && z in top ==> AtLeast(DeviationOf(z), DeviationOf(y)))
  {
    var candidates := Candidates(sensors);
    var sorted := SortByDeviation(candidates);
    var top := Take(sorted, TopIssueCount);
    assert sorted == top + sorted[|top|..];
    assert multiset(top) <= multiset(candidates) by {
      assert multiset(sorted) == multiset(top) + multiset(sorted[|top|..]);
    }
    assert Sorted(top) by {
      SortSorted(candidates);
      assert forall i :: 0 <= i < |top| ==> top[i] == sorted[i];
    }
    TopKeepsTies(candidates);
    TopDominatesRest(candidates);
  }

  /** Cutting the sorted candidates keeps each deviation's rows as a prefix of their input order. */
  lemma TopKeepsTies(candidates: seq<SensorComparison>)
    requires AllComplete(candidates)
    ensures forall d :: StartsWithSeq(WithDeviation(candidates, d), WithDeviation(Take(SortByDeviation(candidates), TopIssueCount), d))
  {
    var sorted := SortByDeviation(candidates);
    var top := Take(sorted, TopIssueCount);
    var rest := sorted[|top|..];
    assert sorted == top + rest;
    SortKeepsTies(candidates);
    forall d
      ensures StartsWithSeq(WithDeviation(candidates, d), WithDeviation(top, d))
    {
      WithDeviationAppend(top, rest, d);
      assert WithDeviation(sorted, d) == WithDeviation(candidates, d);
    }
  }

  /** No candidate left out of the cut ranks above a kept one. */
  lemma TopDominatesRest(candidates: seq<SensorComparison>)
    requires AllComplete(candidates)
    ensures var top := Take(SortByDeviation(candidates), TopIssueCount);
      forall y, z :: y in multiset(candidates) - multiset(top) && z in top ==> AtLeast(DeviationOf(z), DeviationOf(y))
  {
    var sorted := SortByDeviation(candidates);
    var top := Take(sorted, TopIssueCount);
    var rest := sorted[|top|..];
    assert sorted == top + rest;
    assert multiset(sorted) == multiset(top) + multiset(rest);
    SortSorted(candidates);
    forall y, z | y in multiset(candidates) - multiset(top) && z in top
      ensures AtLeast(DeviationOf(z), DeviationOf(y))
    {
      assert y in multiset(rest);
      var j :| 0 <= j < |rest| && rest[j] == y;
      var i :| 0 <= i < |top| && top[i] == z;
      assert sorted[i] == z && sorted[|top| + j] == y;
    }
  }

  /** `p` is a prefix of `s`. */
  predicate StartsWithSeq(s: seq<SensorComparison>, p: seq<SensorComparison>) {
    |p| <= |s| && s[..|p|] == p
  }
}
