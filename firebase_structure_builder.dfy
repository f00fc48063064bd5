/** The line-data helpers of shared/cpp/FirebaseStructureBuilder.cpp: the
    recommended-line scan over per-line snapshots, the aggregate record that
    copies the recommended line's figures, the average-wait formula and the
    store paths.  JSON text and the time stamp are not modelled. */
module FirebaseStructureBuilder {
  import opened NumericText

  /** A per-line snapshot, as `LineData`. */
  datatype LineData = LineData(
    currentOccupancy: int,
    throughputFactor: real,
    averageWaitTime: real,
    lineNumber: int)

  /** The five-field aggregate record the .cpp builds. */
  datatype AggregatedData = AggregatedData(
    totalPeople: int,
    numberOfLines: int,
    recommendedLine: int,
    averageWaitTime: real,
    currentOccupancy: int)

  function GetLineDataPath(lineNumber: int): string
  {
    "queues/line" + IntToString(lineNumber)
  }

  function GetAggregatedDataPath(): string
  {
    "currentBest"
  }

  /** One path per line, and none of them is the aggregate path. */
  lemma LineDataPathsDistinct(a: int, b: int)
    ensures GetLineDataPath(a) == GetLineDataPath(b) <==> a == b
    ensures GetLineDataPath(a) != GetAggregatedDataPath()
  {
    if GetLineDataPath(a) == GetLineDataPath(b) {
      assert IntToString(a) == GetLineDataPath(a)[11..];
      assert IntToString(b) == GetLineDataPath(b)[11..];
      IntToStringInjective(a, b);
    }
    assert GetLineDataPath(a)[0] == 'q' != 'c' == GetAggregatedDataPath()[0];
  }

  /** `calculateAverageWaitTime`: occupancy over throughput, 0 when the throughput is not positive. */
  function CalculateAverageWaitTime(occupancy: int, throughputFactor: real): (w: real)
    ensures throughputFactor > 0.0 ==> w * throughputFactor == occupancy as real
    ensures throughputFactor <= 0.0 ==> w == 0.0
    ensures occupancy >= 0 ==> w >= 0.0
  {
    if throughputFactor > 0.0 then (occupancy as real) / throughputFactor else 0.0
  }

  /** The first `n` snapshots lie in the array and carry line numbers that
      index it, so `allLines[recommendedLine - 1]` is always a read inside it. */
  ghost predicate LineNumbersInRange(allLines: seq<LineData>, n: int)
  {
    n <= |allLines| &&
    forall i :: 0 <= i < n ==> 1 <= allLines[i].lineNumber <= |allLines|
  }

  /** Snapshot `i` describes line `i + 1`, as every caller builds them. */
  ghost predicate Numbered(allLines: seq<LineData>, n: int)
  {
    n <= |allLines| &&
    forall i :: 0 <= i < n ==> allLines[i].lineNumber == i + 1
  }

  /** The scan's state: the current recommendation and its score. */
  datatype Pick = Pick(line: int, score: real)

  function Abs(x: real): real
  {
    if x < 0.0 then -x else x
  }

  /** One candidate: within 0.5 of the best score it wins only with strictly
      fewer people than the recommended line; otherwise only with a strictly lower score. */
  function Consider(allLines: seq<LineData>, p: Pick, c: LineData): Pick
    requires 1 <= p.line <= |allLines|
  {
    if Abs(c.averageWaitTime - p.score) < 0.5 then
      if c.currentOccupancy < allLines[p.line - 1].currentOccupancy then Pick(c.lineNumber, c.averageWaitTime)
      else p
    else if c.averageWaitTime < p.score then Pick(c.lineNumber, c.averageWaitTime)
    else p
  }

  /** The recommendation after the first `k` of `n` snapshots, starting from line 1
      with the first snapshot's score. */
  function RecommendedScan(allLines: seq<LineData>, n: int, k: nat): (p: Pick)
    requires 0 < n && LineNumbersInRange(allLines, n) && k <= n
    ensures 1 <= p.line <= |allLines|
  {
    if k == 0 then Pick(1, allLines[0].averageWaitTime)
    else Consider(allLines, RecommendedScan(allLines, n, k - 1), allLines[k - 1])
  }

  /** The recommendation is line 1 with the first score, or some snapshot's number and score. */
  lemma {:induction false} RecommendedScanPicksSnapshot(allLines: seq<LineData>, n: int, k: nat)
    requires 0 < n && LineNumbersInRange(allLines, n) && k <= n
    ensures var p := RecommendedScan(allLines, n, k);
            p == Pick(1, allLines[0].averageWaitTime) ||
            exists i :: 0 <= i < k && p == Pick(allLines[i].lineNumber, allLines[i].averageWaitTime)
  {
    if k > 0 {
      RecommendedScanPicksSnapshot(allLines, n, k - 1);
      var q := RecommendedScan(allLines, n, k - 1);
      if q != Pick(1, allLines[0].averageWaitTime) {
        var i :| 0 <= i < k - 1 && q == Pick(allLines[i].lineNumber, allLines[i].averageWaitTime);
        assert 0 <= i < k;
      }
    }
  }

  /** On numbered snapshots the score carried is always the recommended line's own score. */
  lemma {:induction false} RecommendedScanScore(allLines: seq<LineData>, n: int, k: nat)
    requires 0 < n && Numbered(allLines, n) && LineNumbersInRange(allLines, n) && k <= n
    ensures var p := RecommendedScan(allLines, n, k);
            p.score == allLines[p.line - 1].averageWaitTime && (k > 0 ==> p.line <= k)
  {
    if k > 0 {
      RecommendedScanScore(allLines, n, k - 1);
    }
  }

  /** How far apart the scores of snapshots `i` and `j` are. */
  function Gap(allLines: seq<LineData>, i: int, j: int): real
    requires 0 <= i < |allLines| && 0 <= j < |allLines|
  {
    Abs(allLines[i].averageWaitTime - allLines[j].averageWaitTime)
  }

  /** A candidate at least 0.5 away from the best score wins exactly when its score is lower. */
  lemma ConsiderSeparated(allLines: seq<LineData>, p: Pick, c: LineData)
    requires 1 <= p.line <= |allLines| && Abs(c.averageWaitTime - p.score) >= 0.5
    ensures Consider(allLines, p, c) == if c.averageWaitTime < p.score then Pick(c.lineNumber, c.averageWaitTime) else p
  {
  }

  /** When every two scores differ by at least 0.5, the scan finds the line with the least score. */
  lemma {:induction false} RecommendedScanSeparated(allLines: seq<LineData>, n: int, k: nat)
    requires 0 < n && Numbered(allLines, n) && LineNumbersInRange(allLines, n) && 0 < k <= n
    requires forall i, j :: 0 <= i < j < n ==> Gap(allLines, i, j) >= 0.5
    ensures var p := RecommendedScan(allLines, n, k);
            forall j :: 0 <= j < k ==> allLines[p.line - 1].averageWaitTime <= allLines[j].averageWaitTime
  {
    if k > 1 {
      RecommendedScanSeparated(allLines, n, k - 1);
      RecommendedScanScore(allLines, n, k - 1);
      var q := RecommendedScan(allLines, n, k - 1);
      var c := allLines[k - 1];
      assert Gap(allLines, q.line - 1, k - 1) >= 0.5;
      assert Abs(c.averageWaitTime - q.score) >= 0.5;
      ConsiderSeparated(allLines, q, c);
      assert c.lineNumber == k;
      assert RecommendedScan(allLines, n, k) == if c.averageWaitTime < q.score then Pick(k, c.averageWaitTime) else q;
    } else {
      RecommendedScanScore(allLines, n, k);
    }
  }

  /** When all scores are equal, the scan finds the lowest-numbered line with the fewest people. */
  lemma {:induction false} RecommendedScanTied(allLines: seq<LineData>, n: int, k: nat)
    requires 0 < n && Numbered(allLines, n) && LineNumbersInRange(allLines, n) && 0 < k <= n
    requires forall i :: 0 <= i < n ==> allLines[i].averageWaitTime == allLines[0].averageWaitTime
    ensures var p := RecommendedScan(allLines, n, k);
            (forall j :: 0 <= j < k ==> allLines[p.line - 1].currentOccupancy <= allLines[j].currentOccupancy) &&
            (forall j :: 0 <= j < p.line - 1 ==> allLines[j].currentOccupancy > allLines[p.line - 1].currentOccupancy)
  {
    RecommendedScanScore(allLines, n, k);
    if k > 1 {
      RecommendedScanTied(allLines, n, k - 1);
      RecommendedScanScore(allLines, n, k - 1);
      var q := RecommendedScan(allLines, n, k - 1);
      var c := allLines[k - 1];
      assert c.averageWaitTime == q.score;
      assert c.lineNumber == k;
      assert RecommendedScan(allLines, n, k) ==
               if c.currentOccupancy < allLines[q.line - 1].currentOccupancy then Pick(k, c.averageWaitTime) else q;
    }
  }

  /** `calculateRecommendedLine` over the first `numberOfLines` snapshots: 0 when there are none. */
  method CalculateRecommendedLine(allLines: seq<LineData>, numberOfLines: int) returns (r: int)
    requires numberOfLines > 0 ==> LineNumbersInRange(allLines, numberOfLines)
    ensures numberOfLines <= 0 ==> r == 0
    ensures numberOfLines > 0 ==> r == RecommendedScan(allLines, numberOfLines, numberOfLines).line
  {
    if numberOfLines <= 0 {
      return 0;
    }
    var recommendedLine := 1;
    var bestScore := allLines[0].averageWaitTime;
    var i := 0;
    while i < numberOfLines
      invariant 0 <= i <= numberOfLines
      invariant Pick(recommendedLine, bestScore) == RecommendedScan(allLines, numberOfLines, i)
    {
      var currentScore := allLines[i].averageWaitTime;
      if Abs(currentScore - bestScore) < 0.5 {
        if allLines[i].currentOccupancy < allLines[recommendedLine - 1].currentOccupancy {
          recommendedLine := allLines[i].lineNumber;
          bestScore := currentScore;
        }
      } else if currentScore < bestScore {
        recommendedLine := allLines[i].lineNumber;
        bestScore := currentScore;
      }
      i := i + 1;
    }
    return recommendedLine;
  }

  /** `createAggregatedData`: the recommended line and the figures of the first
      snapshot carrying its number (0 and 0.0 when none does). */
  method CreateAggregatedData(allLines: seq<LineData>, totalPeople: int, numberOfLines: int)
    returns (agg: AggregatedData)
    requires numberOfLines > 0 ==> LineNumbersInRange(allLines, numberOfLines)
    ensures numberOfLines <= 0 ==> agg == AggregatedData(totalPeople, numberOfLines, 0, 0.0, 0)
    ensures numberOfLines > 0 ==>
              var rec := RecommendedScan(allLines, numberOfLines, numberOfLines).line;
              agg.totalPeople == totalPeople && agg.numberOfLines == numberOfLines &&
              agg.recommendedLine == rec &&
              ((exists j :: 0 <= j < numberOfLines && allLines[j].lineNumber == rec &&
                  (forall k :: 0 <= k < j ==> allLines[k].lineNumber != rec) &&
                  agg.averageWaitTime == allLines[j].averageWaitTime &&
                  agg.currentOccupancy == allLines[j].currentOccupancy) ||
               ((forall j :: 0 <= j < numberOfLines ==> allLines[j].lineNumber != rec) &&
                  agg.averageWaitTime == 0.0 && agg.currentOccupancy == 0))
    ensures numberOfLines > 0 && Numbered(allLines, numberOfLines) ==>
              agg.averageWaitTime == allLines[agg.recommendedLine - 1].averageWaitTime &&
              agg.currentOccupancy == allLines[agg.recommendedLine - 1].currentOccupancy
  {
    if numberOfLines <= 0 {
      return AggregatedData(totalPeople, numberOfLines, 0, 0.0, 0);
    }
    var recommendedLine := CalculateRecommendedLine(allLines, numberOfLines);
    var recommendedWaitTime := 0.0;
    var recommendedOccupancy := 0;
    var i := 0;
    var found := false;
    while i < numberOfLines && !found
      invariant 0 <= i <= numberOfLines
      invariant !found ==> forall k :: 0 <= k < i ==> allLines[k].lineNumber != recommendedLine
      invariant !found ==> recommendedWaitTime == 0.0 && recommendedOccupancy == 0
      invariant found ==> 0 < i && allLines[i - 1].lineNumber == recommendedLine &&
                          (forall k :: 0 <= k < i - 1 ==> allLines[k].lineNumber != recommendedLine) &&
                          recommendedWaitTime == allLines[i - 1].averageWaitTime &&
                          recommendedOccupancy == allLines[i - 1].currentOccupancy
    {
      if allLines[i].lineNumber == recommendedLine {
        recommendedWaitTime := allLines[i].averageWaitTime;
        recommendedOccupancy := allLines[i].currentOccupancy;
        found := true;
      }
      i := i + 1;
    }
    if found {
      assert 0 <= i - 1 < numberOfLines;
    }
    if Numbered(allLines, numberOfLines) {
      RecommendedScanScore(allLines, numberOfLines, numberOfLines);
      assert allLines[recommendedLine - 1].lineNumber == recommendedLine;
    }
    agg := AggregatedData(totalPeople, numberOfLines, recommendedLine, recommendedWaitTime, recommendedOccupancy);
  }
}
