/** The line router of shared/cpp/QueueManager.cpp: N first-in first-out lines
    of people, a selection strategy that picks the line for an arrival, the
    head-of-line exit stamping on admission and departure, capacity, the
    running statistics, the throughput trackers and the one-hour history.

    Clocks are parameters: `wallMs` is the wall clock in milliseconds (it feeds
    the person time stamps through `SimulationClock` and the history cutoff),
    `steadyMs` the steady clock of the trackers.  The cloud writes are outside
    the model; their outcomes enter `UpdateAllAndCleanHistory` as booleans. */
module LineRouter {
  import opened SessionPerson
  import opened Sequences
  import opened FirebasePeopleStructureBuilder
  import SessionThroughput
  import ClampedThroughput

  /** The historical cap on the number of lines; its value is declared in a
      header that is not part of this model. */
  const MAX_LINES: nat

  type PositiveReal = r: real | r > 0.0 witness 1.0

  /** People per second assumed for a line without reliable data; declared in
      a header that is not part of this model. */
  const DEFAULT_THROUGHPUT: PositiveReal

  const ONE_HOUR_MS: int := 60 * 60 * 1000

  /** The wait reported for a line number that does not exist. */
  const INVALID_LINE_WAIT: real := 999.0

  /** The three strategies, and `Unlisted` for any other enumerator value,
      which takes the `default` branch of the selection. */
  datatype LineSelectionStrategy = ShortestWaitTime | FewestPeople | FarthestFromEntrance | Unlisted

  /** Total number of people over all lines. */
  function SumSizes(lines: seq<seq<Person>>): nat
  {
    if lines == [] then 0 else SumSizes(lines[..|lines| - 1]) + |lines[|lines| - 1]|
  }

  /** Replacing one line changes the total by the difference of the two sizes. */
  lemma {:induction false} SumSizesUpdate(lines: seq<seq<Person>>, i: nat, line: seq<Person>)
    requires i < |lines|
    ensures SumSizes(lines[i := line]) == SumSizes(lines) - |lines[i]| + |line|
  {
    var n := |lines| - 1;
    if i < n {
      SumSizesUpdate(lines[..n], i, line);
      assert lines[i := line][..n] == lines[..n][i := line];
    } else {
      assert lines[i := line][..n] == lines[..n];
    }
  }

  /** All lines together with no line's people, as `reset` leaves them. */
  lemma {:induction false} SumSizesOfEmptyLines(lines: seq<seq<Person>>)
    requires forall i :: 0 <= i < |lines| ==> lines[i] == []
    ensures SumSizes(lines) == 0
  {
    if lines != [] {
      SumSizesOfEmptyLines(lines[..|lines| - 1]);
    }
  }

  /** The people of all lines, line 1 first, each line front to back. */
  function Flatten(lines: seq<seq<Person>>): (all: seq<Person>)
    ensures |all| == SumSizes(lines)
  {
    if lines == [] then [] else Flatten(lines[..|lines| - 1]) + lines[|lines| - 1]
  }

  /** Every person of every line appears in the flattened list. */
  lemma {:induction false} FlattenContains(lines: seq<seq<Person>>, i: nat, k: nat)
    requires i < |lines| && k < |lines[i]|
    ensures lines[i][k] in Flatten(lines)
  {
    var n := |lines| - 1;
    if i == n {
      assert lines[i][k] == Flatten(lines)[|Flatten(lines[..n])| + k];
    } else {
      assert lines[..n][i] == lines[i];
      FlattenContains(lines[..n], i, k);
    }
  }

  /** Time to reach the head: the people ahead divided by the service rate. */
  function WaitEstimate(peopleInLine: nat, throughput: real): (w: real)
    requires throughput > 0.0
    ensures w >= 0.0
    ensures w * throughput == peopleInLine as real
  {
    if peopleInLine == 0 then 0.0 else (peopleInLine as real) / throughput
  }

  /** The history entries kept by `cleanOldHistoryEntries`: those that did not
      enter before `cutoff`, in their original order, each as many times as
      the history holds it. */
  function PruneHistory(history: seq<Person>, cutoff: int): (kept: seq<Person>)
    ensures IsSubsequence(kept, history)
    ensures forall p :: p in kept ==> p.enteringTimestamp >= cutoff
    ensures forall p :: p in history && p.enteringTimestamp >= cutoff ==> p in kept
    ensures forall p :: multiset(kept)[p] == if p.enteringTimestamp >= cutoff then multiset(history)[p] else 0
  {
    if history == [] then []
    else
      var rest := PruneHistory(history[1..], cutoff);
      assert forall p :: p in history ==> p == history[0] || p in history[1..];
      assert history == [history[0]] + history[1..];
      if history[0].enteringTimestamp < cutoff then rest else [history[0]] + rest
  }

  /** Pruning twice with the same cutoff is pruning once. */
  lemma {:induction false} PruneHistoryIdempotent(history: seq<Person>, cutoff: int)
    ensures PruneHistory(PruneHistory(history, cutoff), cutoff) == PruneHistory(history, cutoff)
  {
    if history != [] {
      PruneHistoryIdempotent(history[1..], cutoff);
      var rest := PruneHistory(history[1..], cutoff);
      if history[0].enteringTimestamp >= cutoff {
        assert ([history[0]] + rest)[1..] == rest;
      }
    }
  }

  /** The entering stamps are seconds since the simulation start while the
      cutoff is wall-clock milliseconds minus an hour: once the cutoff is past
      every stamp, pruning empties the history, so an admission leaves only
      the newest person in it. */
  lemma HistoryUnitMismatch(history: seq<Person>, newest: Person, wallMs: int)
    requires forall p :: p in history ==> p.enteringTimestamp < wallMs - ONE_HOUR_MS
    ensures PruneHistory(history, wallMs - ONE_HOUR_MS) + [newest] == [newest]
  {
    var kept := PruneHistory(history, wallMs - ONE_HOUR_MS);
    SubsequenceElements(kept, history);
    assert forall i :: 0 <= i < |kept| ==> kept[i] in history && kept[i].enteringTimestamp >= wallMs - ONE_HOUR_MS;
  }

  /** A line after admitting `p`: a person who arrives at an empty line is at
      the head at once and is stamped with the same clock reading. */
  function Admit(line: seq<Person>, p: Person, now: int): (after: seq<Person>)
    ensures |after| == |line| + 1 && after[..|line|] == line
    ensures after[|line|] == if line == [] then p.RecordExit(now) else p
  {
    if line == [] then [p.RecordExit(now)] else line + [p]
  }

  /** A line after its head leaves: the next person reaches the head and is stamped. */
  function Depart(line: seq<Person>, now: int): (after: seq<Person>)
    requires line != []
    ensures |after| == |line| - 1
    ensures after != [] ==> after[0] == line[1].RecordExit(now) && after[1..] == line[2..]
  {
    var rest := line[1..];
    if rest == [] then [] else [rest[0].RecordExit(now)] + rest[1..]
  }

  /** The `count` placeholder people `setLineCount` builds for line `lineNumber`:
      the k-th is estimated as if k people were ahead of it, and none is stamped. */
  function DummyLine(count: nat, lineNumber: int, throughput: real, now: int): (line: seq<Person>)
    requires throughput > 0.0
    ensures |line| == count
    ensures forall k :: 0 <= k < count ==> line[k] == NewPerson(WaitEstimate(k, throughput), lineNumber, now)
  {
    if count == 0 then []
    else DummyLine(count - 1, lineNumber, throughput, now) + [NewPerson(WaitEstimate(count - 1, throughput), lineNumber, now)]
  }

  /** Everyone in a line carries its number, and only the head can carry an exit stamp. */
  ghost predicate LineShape(line: seq<Person>, lineNumber: int)
  {
    forall k :: 0 <= k < |line| ==> line[k].lineNumber == lineNumber && (k >= 1 ==> !line[k].HasExited())
  }

  /** Every line has the shape of its own number. */
  ghost predicate LinesShaped(lines: seq<seq<Person>>)
  {
    forall i :: 0 <= i < |lines| ==> LineShape(lines[i], i + 1)
  }

  lemma LinesShapedUpdate(lines: seq<seq<Person>>, i: nat, line: seq<Person>)
    requires LinesShaped(lines) && i < |lines| && LineShape(line, i + 1)
    ensures LinesShaped(lines[i := line])
  {
  }

  lemma AdmitKeepsShape(line: seq<Person>, p: Person, now: int, lineNumber: int)
    requires LineShape(line, lineNumber) && p.lineNumber == lineNumber && !p.HasExited()
    ensures LineShape(Admit(line, p, now), lineNumber)
  {
  }

  lemma DepartKeepsShape(line: seq<Person>, now: int, lineNumber: int)
    requires line != [] && LineShape(line, lineNumber)
    ensures LineShape(Depart(line, now), lineNumber)
  {
  }

  /** The tail of a line after `p` joins it, stamping `p` when it is alone;
      `realised` is the wait that stamp realises. */
  method JoinTail(before: seq<Person>, p: Person, clock: SimulationClock, wallMs: int)
    returns (line: seq<Person>, realised: real)
    requires !p.HasExited()
    modifies clock
    ensures var now := ClockReading(old(clock.simulationStartTime), wallMs);
            && line == Admit(before, p, now)
            && realised == (if before == [] then p.RecordExit(now).ActualWaitTime() else 0.0)
            && clock.simulationStartTime ==
                 (if before == [] then StartAfterReading(old(clock.simulationStartTime), wallMs)
                  else old(clock.simulationStartTime))
  {
    line := before + [p];
    realised := 0.0;
    if |line| == 1 {
      var head := clock.StampExit(line[0], wallMs);
      line := [head];
      realised := head.ActualWaitTime();
    }
  }

  /** A line after its head leaves, stamping the new head when it is not
      stamped yet; `realised` is the wait that stamp realises. */
  method PopTail(before: seq<Person>, clock: SimulationClock, wallMs: int)
    returns (line: seq<Person>, realised: real)
    requires before != [] && (|before| > 1 ==> !before[1].HasExited())
    modifies clock
    ensures var now := ClockReading(old(clock.simulationStartTime), wallMs);
            && line == Depart(before, now)
            && realised == (if |before| > 1 then before[1].RecordExit(now).ActualWaitTime() else 0.0)
            && clock.simulationStartTime ==
                 (if |before| > 1 then StartAfterReading(old(clock.simulationStartTime), wallMs)
                  else old(clock.simulationStartTime))
  {
    line := before[1..];
    realised := 0.0;
    if line != [] && !line[0].HasExited() {
      var head := clock.StampExit(line[0], wallMs);
      line := [head] + line[1..];
      realised := head.ActualWaitTime();
    }
  }

  /** Distinct trackers, each in a consistent state. */
  ghost predicate TrackersOk(ts: seq<SessionThroughput.ThroughputTracker>)
    reads set t | t in ts
  {
    && (forall i, j :: 0 <= i < j < |ts| ==> ts[i] != ts[j])
    && (forall i :: 0 <= i < |ts| ==> ts[i].Valid())
  }

  /** Placeholder people are unstamped and carry their line's number. */
  lemma DummyLineShape(count: nat, lineNumber: int, throughput: real, now: int)
    requires throughput > 0.0
    ensures LineShape(DummyLine(count, lineNumber, throughput, now), lineNumber)
  {
  }

  /** The loop of `setLineCount`: `count` placeholder people for an emptied
      line, each estimated on the line as built so far at the line's rate,
      all created with one clock reading. */
  method BuildPlaceholders(count: nat, lineNumber: int, rate: real, clock: SimulationClock, wallMs: int)
    returns (line: seq<Person>)
    requires rate > 0.0
    modifies clock
    ensures line == DummyLine(count, lineNumber, rate, ClockReading(old(clock.simulationStartTime), wallMs))
    ensures clock.simulationStartTime ==
              if count > 0 then StartAfterReading(old(clock.simulationStartTime), wallMs)
              else old(clock.simulationStartTime)
  {
    ghost var start := clock.simulationStartTime;
    ghost var now := ClockReading(start, wallMs);
    ClockReadingSettles(start, wallMs);
    line := [];
    var i := 0;
    while i < count
      invariant 0 <= i <= count
      invariant line == DummyLine(i, lineNumber, rate, now)
      invariant clock.simulationStartTime == if i > 0 then StartAfterReading(start, wallMs) else start
    {
      var expectedWaitTime := WaitEstimate(|line|, rate);
      var dummyPerson := clock.CreatePerson(expectedWaitTime, lineNumber, wallMs);
      line := line + [dummyPerson];
      i := i + 1;
    }
  }

  class QueueManager {
    var maxSize: int                     // per-line capacity, 0 or less = unlimited
    var numberOfLines: int
    var totalPeople: int
    var lines: seq<seq<Person>>          // lines[i] is line i + 1, head first
    var lineThroughputs: seq<real>
    var strategyPrefix: string
    var trackers: seq<SessionThroughput.ThroughputTracker>
    var totalPeopleEver: int
    var completedPeopleEver: int
    var totalExpectedWaitTime: real
    var totalActualWaitTime: real
    var lastSelectedLine: int
    var lastHourHistory: seq<Person>

    /** The structure every operation keeps: one list, one throughput entry and
        at least one tracker per line; people carry their own line's number;
        only a head can carry an exit stamp. */
    ghost predicate WellFormed()
      reads this, trackers
    {
      && 0 <= numberOfLines <= MAX_LINES
      && |lines| == numberOfLines && |lineThroughputs| == numberOfLines
      && numberOfLines <= |trackers|
      && TrackersOk(trackers)
      && LinesShaped(lines)
      && (forall i :: 0 <= i < |lineThroughputs| ==>
            lineThroughputs[i] == DEFAULT_THROUGHPUT ||
            ClampedThroughput.MIN_RATE <= lineThroughputs[i] <= ClampedThroughput.MAX_RATE)
    }

    /** The capacity, the line structure, the stored rates, the prefix and the trackers stay. */
    twostate predicate ConfigUnchanged()
      reads this
    {
      && maxSize == old(maxSize) && numberOfLines == old(numberOfLines)
      && lineThroughputs == old(lineThroughputs) && strategyPrefix == old(strategyPrefix)
      && trackers == old(trackers)
    }

    /** The running statistics, the last selection and the history stay. */
    twostate predicate StatisticsUnchanged()
      reads this
    {
      && totalPeopleEver == old(totalPeopleEver) && completedPeopleEver == old(completedPeopleEver)
      && totalExpectedWaitTime == old(totalExpectedWaitTime) && totalActualWaitTime == old(totalActualWaitTime)
      && lastSelectedLine == old(lastSelectedLine) && lastHourHistory == old(lastHourHistory)
    }

    /** `WellFormed` and the stored total equals the total over the lines. */
    ghost predicate Valid()
      reads this, trackers
    {
      WellFormed() && totalPeople == SumSizes(lines)
    }

    /** Builds `count` independent trackers started at `steadyMs`. */
    static method NewTrackers(count: nat, steadyMs: int) returns (ts: seq<SessionThroughput.ThroughputTracker>)
      ensures |ts| == count
      ensures forall i :: 0 <= i < count ==> fresh(ts[i]) && ts[i].Valid() && ts[i].serviceCompletionCount == 0
      ensures forall i, j :: 0 <= i < j < count ==> ts[i] != ts[j]
    {
      ts := [];
      while |ts| < count
        invariant |ts| <= count
        invariant forall i :: 0 <= i < |ts| ==> fresh(ts[i]) && ts[i].Valid() && ts[i].serviceCompletionCount == 0
        invariant forall i, j :: 0 <= i < j < |ts| ==> ts[i] != ts[j]
      {
        var t := new SessionThroughput.ThroughputTracker(steadyMs);
        ts := ts + [t];
      }
    }

    /** The line count is capped to 0..MAX_LINES, while the tracker vector is
        sized from the requested count (a negative count makes that vector's
        construction fail, hence the precondition). */
    constructor (maxSize: int, numberOfLines: int, strategyPrefix: string, steadyMs: int)
      requires numberOfLines >= 0
      ensures Valid()
      ensures this.maxSize == maxSize && this.strategyPrefix == strategyPrefix
      ensures this.numberOfLines == if numberOfLines > MAX_LINES then MAX_LINES else numberOfLines
      ensures forall i :: 0 <= i < |lines| ==> lines[i] == []
      ensures forall i :: 0 <= i < |lineThroughputs| ==> lineThroughputs[i] == DEFAULT_THROUGHPUT
      ensures |trackers| == numberOfLines
      ensures forall i :: 0 <= i < |trackers| ==> fresh(trackers[i]) && trackers[i].serviceCompletionCount == 0
      ensures totalPeople == 0 && totalPeopleEver == 0 && completedPeopleEver == 0
      ensures totalExpectedWaitTime == 0.0 && totalActualWaitTime == 0.0
      ensures lastSelectedLine == -1 && lastHourHistory == []
    {
      var ts := NewTrackers(numberOfLines, steadyMs);
      var n := numberOfLines;
      if n < 0 {
        n := 0;
      }
      if n > MAX_LINES {
        n := MAX_LINES;
      }
      this.maxSize := maxSize;
      this.numberOfLines := n;
      totalPeople := 0;
      lines := seq(n, _ => []);
      lineThroughputs := seq(n, _ => DEFAULT_THROUGHPUT);
      this.strategyPrefix := strategyPrefix;
      trackers := ts;
      totalPeopleEver := 0;
      completedPeopleEver := 0;
      totalExpectedWaitTime := 0.0;
      totalActualWaitTime := 0.0;
      lastSelectedLine := -1;
      lastHourHistory := [];
      new;
      SumSizesOfEmptyLines(lines);
    }

    predicate IsValidLineNumber(lineNumber: int)
      reads this
    {
      1 <= lineNumber <= numberOfLines
    }

    function Size(): int
      reads this
    {
      totalPeople
    }

    predicate IsEmpty()
      reads this
    {
      totalPeople == 0
    }

    function GetNumberOfLines(): int
      reads this
    {
      numberOfLines
    }

    /** A line is full only when a positive capacity is set and reached. */
    predicate IsLineAtCapacity(lineIndex: nat)
      reads this
      requires lineIndex < |lines|
    {
      maxSize > 0 && |lines[lineIndex]| >= maxSize
    }

    ghost predicate AllLinesAtCapacity()
      reads this
      requires |lines| == numberOfLines
    {
      forall i :: 0 <= i < numberOfLines ==> IsLineAtCapacity(i)
    }

    /** The rate used for line `lineIndex + 1`: the tracker's once it has
        reliable data, the default otherwise. */
    function LineRate(lineIndex: nat): (r: real)
      reads this, trackers
      requires WellFormed() && lineIndex < numberOfLines
      ensures r > 0.0
      ensures !trackers[lineIndex].HasReliableData() ==> r == DEFAULT_THROUGHPUT
    {
      if trackers[lineIndex].HasReliableData() then trackers[lineIndex].GetCurrentThroughput()
      else DEFAULT_THROUGHPUT
    }

    /** `getEstimatedWaitTime`: people in the line over its rate; 0 for an empty
        line and 999 for a line number that does not exist. */
    function GetEstimatedWaitTime(lineNumber: int): (w: real)
      reads this, trackers
      requires WellFormed()
      ensures !IsValidLineNumber(lineNumber) ==> w == INVALID_LINE_WAIT
      ensures IsValidLineNumber(lineNumber) ==>
                w == WaitEstimate(|lines[lineNumber - 1]|, LineRate(lineNumber - 1)) &&
                w * LineRate(lineNumber - 1) == |lines[lineNumber - 1]| as real &&
                (lines[lineNumber - 1] == [] ==> w == 0.0)
    {
      if !IsValidLineNumber(lineNumber) then INVALID_LINE_WAIT
      else
        var peopleInLine := |lines[lineNumber - 1]|;
        var throughput := LineRate(lineNumber - 1);
        if peopleInLine == 0 then 0.0 else (peopleInLine as real) / throughput
    }

    /** `getEstimatedWaitTimeForNewPerson`: the time until a newcomer reaches
        the head, by the same formula as `getEstimatedWaitTime`. */
    function GetEstimatedWaitTimeForNewPerson(lineNumber: int): (w: real)
      reads this, trackers
      requires WellFormed()
      ensures w == GetEstimatedWaitTime(lineNumber)
      ensures !IsValidLineNumber(lineNumber) ==> w == INVALID_LINE_WAIT
      ensures IsValidLineNumber(lineNumber) ==> w >= 0.0 && (lines[lineNumber - 1] == [] ==> w == 0.0)
    {
      if !IsValidLineNumber(lineNumber) then INVALID_LINE_WAIT
      else
        var peopleInLine := |lines[lineNumber - 1]|;
        var throughput := LineRate(lineNumber - 1);
        if peopleInLine == 0 then 0.0 else (peopleInLine as real) / throughput
    }

    /** What `getNextLineNumber(strategy)` must return: -1 when there is no line
        or every line is full; otherwise a line that is not full and is
        - for fewest people: the lowest-numbered line with the fewest people;
        - for farthest from the entrance: the highest-numbered line;
        - for shortest wait (and any other value): the lowest-numbered line with
          the least estimated wait;
        each among the lines that are not full. */
    ghost predicate IsNextLine(strategy: LineSelectionStrategy, r: int)
      reads this, trackers
      requires WellFormed()
    {
      if numberOfLines == 0 || AllLinesAtCapacity() then r == -1
      else
        && 1 <= r <= numberOfLines
        && !IsLineAtCapacity(r - 1)
        && match strategy
           case FewestPeople =>
             && (forall j :: 0 <= j < numberOfLines && !IsLineAtCapacity(j) ==> |lines[r - 1]| <= |lines[j]|)
             && (forall j :: 0 <= j < r - 1 && !IsLineAtCapacity(j) ==> |lines[j]| > |lines[r - 1]|)
           case FarthestFromEntrance =>
             forall j :: r - 1 < j < numberOfLines ==> IsLineAtCapacity(j)
           case _ =>
             && (forall j :: 0 <= j < numberOfLines && !IsLineAtCapacity(j) ==>
                   GetEstimatedWaitTimeForNewPerson(r) <= GetEstimatedWaitTimeForNewPerson(j + 1))
             && (forall j :: 0 <= j < r - 1 && !IsLineAtCapacity(j) ==>
                   GetEstimatedWaitTimeForNewPerson(j + 1) > GetEstimatedWaitTimeForNewPerson(r))
    }

    /** The selection is a function of the state: at most one answer fits. */
    lemma NextLineUnique(strategy: LineSelectionStrategy, a: int, b: int)
      requires WellFormed() && IsNextLine(strategy, a) && IsNextLine(strategy, b)
      ensures a == b
    {
      if numberOfLines != 0 && !AllLinesAtCapacity() {
        match strategy
        case FewestPeople =>
          assert |lines[a - 1]| == |lines[b - 1]|;
        case FarthestFromEntrance =>
        case _ =>
          assert GetEstimatedWaitTimeForNewPerson(a) == GetEstimatedWaitTimeForNewPerson(b);
      }
    }

    /** `getNextLineNumber`: the line an arrival is sent to, or -1. */
    method GetNextLineNumber(strategy: LineSelectionStrategy) returns (r: int)
      requires WellFormed()
      ensures IsNextLine(strategy, r)
    {
      if numberOfLines == 0 {
        return -1;
      }
      match strategy
      case ShortestWaitTime =>
        r := ShortestWaitLine();
      case FewestPeople =>
        r := FewestPeopleLine();
      case FarthestFromEntrance =>
        r := FarthestOpenLine();
      case Unlisted =>
        r := ShortestWaitLine();
    }

    /** The shortest-wait (and `default`) branch of `getNextLineNumber`. */
    method ShortestWaitLine() returns (bestLine: int)
      requires WellFormed() && numberOfLines != 0
      ensures IsNextLine(ShortestWaitTime, bestLine) && IsNextLine(Unlisted, bestLine)
    {
      var minWaitTime := 0.0;   // only read once a best line exists
      bestLine := -1;
      var i := 1;
      while i <= numberOfLines
        invariant 1 <= i <= numberOfLines + 1
        invariant bestLine == -1 <==> forall j :: 0 <= j < i - 1 ==> IsLineAtCapacity(j)
        invariant bestLine != -1 ==>
                    && 1 <= bestLine < i && !IsLineAtCapacity(bestLine - 1)
                    && minWaitTime == GetEstimatedWaitTimeForNewPerson(bestLine)
                    && (forall j :: 0 <= j < i - 1 && !IsLineAtCapacity(j) ==>
                          minWaitTime <= GetEstimatedWaitTimeForNewPerson(j + 1))
                    && (forall j :: 0 <= j < bestLine - 1 && !IsLineAtCapacity(j) ==>
                          GetEstimatedWaitTimeForNewPerson(j + 1) > minWaitTime)
      {
        if !IsLineAtCapacity(i - 1) {
          var waitTime := GetEstimatedWaitTimeForNewPerson(i);
          if bestLine == -1 || waitTime < minWaitTime {
            minWaitTime := waitTime;
            bestLine := i;
          }
        }
        i := i + 1;
      }
    }

    /** The fewest-people branch of `getNextLineNumber`. */
    method FewestPeopleLine() returns (bestLine: int)
      requires WellFormed() && numberOfLines != 0
      ensures IsNextLine(FewestPeople, bestLine)
    {
      var minPeople := 0;       // only read once a best line exists
      bestLine := -1;
      var i := 0;
      while i < numberOfLines
        invariant 0 <= i <= numberOfLines
        invariant bestLine == -1 <==> forall j :: 0 <= j < i ==> IsLineAtCapacity(j)
        invariant bestLine != -1 ==>
                    && 1 <= bestLine <= i && !IsLineAtCapacity(bestLine - 1)
                    && minPeople == |lines[bestLine - 1]|
                    && (forall j :: 0 <= j < i && !IsLineAtCapacity(j) ==> minPeople <= |lines[j]|)
                    && (forall j :: 0 <= j < bestLine - 1 && !IsLineAtCapacity(j) ==> |lines[j]| > minPeople)
      {
        if !IsLineAtCapacity(i) {
          var peopleCount := |lines[i]|;
          if bestLine == -1 || peopleCount < minPeople {
            minPeople := peopleCount;
            bestLine := i + 1;
          }
        }
        i := i + 1;
      }
    }

    /** The farthest-from-entrance branch of `getNextLineNumber`. */
    method FarthestOpenLine() returns (bestLine: int)
      requires WellFormed() && numberOfLines != 0
      ensures IsNextLine(FarthestFromEntrance, bestLine)
    {
      bestLine := -1;
      var i := numberOfLines;
      while i >= 1
        invariant 0 <= i <= numberOfLines
        invariant forall j :: i <= j < numberOfLines ==> IsLineAtCapacity(j)
      {
        if !IsLineAtCapacity(i - 1) {
          bestLine := i;
          break;
        }
        i := i - 1;
      }
    }

    /** `getLineCount`: the size of a line, -1 for a line number that does not exist. */
    function GetLineCount(lineNumber: int): (count: int)
      reads this
      requires |lines| == numberOfLines
      ensures count == -1 <==> !IsValidLineNumber(lineNumber)
      ensures IsValidLineNumber(lineNumber) ==> count == |lines[lineNumber - 1]|
    {
      if !IsValidLineNumber(lineNumber) then -1 else |lines[lineNumber - 1]|
    }

    /** Some line exists and is not full, so an arrival can be admitted. */
    ghost predicate SomeLineOpen()
      reads this
      requires |lines| == numberOfLines
    {
      numberOfLines != 0 && !AllLinesAtCapacity()
    }

    /** The state change of one admission on line `lineNumber`, with the wall
        clock at `wallMs`: the person is estimated on the line as it was, joins
        its tail, enters the history, and when alone in the line reaches the
        head at once (its realised wait is 0). */
    twostate predicate AdmittedOn(lineNumber: int, clock: SimulationClock, wallMs: int)
      reads this, clock
    {
      && old(WellFormed())
      && 1 <= lineNumber <= old(numberOfLines)
      && var now := ClockReading(old(clock.simulationStartTime), wallMs);
         var before := old(lines)[lineNumber - 1];
         var expectedWaitTime := old(GetEstimatedWaitTimeForNewPerson(lineNumber));
         var p := NewPerson(expectedWaitTime, lineNumber, now);
         && lines == old(lines)[lineNumber - 1 := Admit(before, p, now)]
         && totalPeople == old(totalPeople) + 1
         && totalPeopleEver == old(totalPeopleEver) + 1
         && totalExpectedWaitTime == old(totalExpectedWaitTime) + expectedWaitTime
         && completedPeopleEver == old(completedPeopleEver) + (if before == [] then 1 else 0)
         && totalActualWaitTime == old(totalActualWaitTime)
         && lastHourHistory == PruneHistory(old(lastHourHistory), wallMs - ONE_HOUR_MS) + [p]
         && clock.simulationStartTime == StartAfterReading(old(clock.simulationStartTime), wallMs)
         && ConfigUnchanged()
    }

    /** A person joins the tail of a line; alone there, it is at the head and
        is stamped at once. */
    method JoinLine(lineNumber: int, newPerson: Person, clock: SimulationClock, wallMs: int)
      requires Valid() && IsValidLineNumber(lineNumber)
      requires newPerson.lineNumber == lineNumber && !newPerson.HasExited()
      modifies this, clock
      ensures Valid() && ConfigUnchanged()
      ensures var before := old(lines)[lineNumber - 1];
              var now := ClockReading(old(clock.simulationStartTime), wallMs);
              && lines == old(lines)[lineNumber - 1 := Admit(before, newPerson, now)]
              && totalPeople == old(totalPeople) + 1
              && completedPeopleEver == old(completedPeopleEver) + (if before == [] then 1 else 0)
              && totalActualWaitTime == old(totalActualWaitTime) +
                   (if before == [] then newPerson.RecordExit(now).ActualWaitTime() else 0.0)
              && clock.simulationStartTime ==
                   (if before == [] then StartAfterReading(old(clock.simulationStartTime), wallMs)
                    else old(clock.simulationStartTime))
      ensures totalPeopleEver == old(totalPeopleEver) && totalExpectedWaitTime == old(totalExpectedWaitTime)
      ensures lastSelectedLine == old(lastSelectedLine) && lastHourHistory == old(lastHourHistory)
    {
      ghost var now := ClockReading(clock.simulationStartTime, wallMs);
      var before := lines[lineNumber - 1];
      var line, realised := JoinTail(before, newPerson, clock, wallMs);
      AdmitKeepsShape(before, newPerson, now, lineNumber);
      LinesShapedUpdate(lines, lineNumber - 1, line);
      SumSizesUpdate(lines, lineNumber - 1, line);
      lines := lines[lineNumber - 1 := line];
      totalPeople := totalPeople + 1;
      if before == [] {
        completedPeopleEver := completedPeopleEver + 1;
        totalActualWaitTime := totalActualWaitTime + realised;
      }
    }

    /** The admission shared by `enqueue` and `enqueueOnLine`, on a line that
        exists and is not full; `selectedLine` becomes the remembered selection. */
    method AdmitOn(lineNumber: int, selectedLine: int, clock: SimulationClock, wallMs: int)
      requires Valid() && IsValidLineNumber(lineNumber) && !IsLineAtCapacity(lineNumber - 1)
      modifies this, clock
      ensures Valid()
      ensures AdmittedOn(lineNumber, clock, wallMs)
      ensures lastSelectedLine == selectedLine
    {
      ClockReadingSettles(clock.simulationStartTime, wallMs);
      var expectedWaitTime := GetEstimatedWaitTimeForNewPerson(lineNumber);
      var newPerson := clock.CreatePerson(expectedWaitTime, lineNumber, wallMs);
      JoinLine(lineNumber, newPerson, clock, wallMs);
      AddPersonToHistory(newPerson, wallMs);
      totalPeopleEver := totalPeopleEver + 1;
      totalExpectedWaitTime := totalExpectedWaitTime + expectedWaitTime;
      lastSelectedLine := selectedLine;
    }

    /** `enqueue`: admits an arrival on the line the strategy selects and
        remembers that line; fails, changing nothing, when no line is open. */
    method Enqueue(strategy: LineSelectionStrategy, clock: SimulationClock, wallMs: int) returns (ok: bool)
      requires Valid()
      modifies this, clock
      ensures Valid()
      ensures ok <==> old(SomeLineOpen())
      ensures !ok ==> unchanged(this) && unchanged(clock)
      ensures ok ==> var selected := lastSelectedLine;
                     old(IsNextLine(strategy, selected)) && AdmittedOn(selected, clock, wallMs)
    {
      var lineNumber := GetNextLineNumber(strategy);
      if lineNumber == -1 {
        return false;
      }
      AdmitOn(lineNumber, lineNumber, clock, wallMs);
      ok := true;
    }

    /** `enqueueOnLine`: admits an arrival on the given line; fails, changing
        nothing, when the line does not exist or is full. */
    method EnqueueOnLine(lineNumber: int, clock: SimulationClock, wallMs: int) returns (ok: bool)
      requires Valid()
      modifies this, clock
      ensures Valid()
      ensures ok <==> old(IsValidLineNumber(lineNumber) && !IsLineAtCapacity(lineNumber - 1))
      ensures !ok ==> unchanged(this) && unchanged(clock)
      ensures ok ==> AdmittedOn(lineNumber, clock, wallMs) && lastSelectedLine == old(lastSelectedLine)
    {
      if !IsValidLineNumber(lineNumber) {
        return false;
      }
      if IsLineAtCapacity(lineNumber - 1) {
        return false;
      }
      AdmitOn(lineNumber, lastSelectedLine, clock, wallMs);
      ok := true;
    }

    /** `enqueueAuto`, as the simulators use it: fewest people until 30 people
        have completed, shortest estimated wait from then on. */
    method EnqueueAuto(clock: SimulationClock, wallMs: int) returns (ok: bool)
      requires Valid()
      modifies this, clock
      ensures Valid()
      ensures ok <==> old(SomeLineOpen())
      ensures !ok ==> unchanged(this) && unchanged(clock)
      ensures ok ==> var selected := lastSelectedLine;
                     old(IsNextLine(AdaptiveStrategy(completedPeopleEver), selected)) &&
                     AdmittedOn(selected, clock, wallMs)
    {
      ok := Enqueue(AdaptiveStrategy(completedPeopleEver), clock, wallMs);
    }

    /** The tracker frame of `dequeue`: the departing line's tracker, if any. */
    function TrackerOf(lineNumber: int): set<object>
      reads this
    {
      if 1 <= lineNumber <= |trackers| then {trackers[lineNumber - 1]} else {}
    }

    /** The state change of one departure from line `lineNumber`: the head
        leaves, the next person (if any) reaches the head, is stamped and counts
        as completed, and the line's tracker records a service. */
    twostate predicate DepartedFrom(lineNumber: int, clock: SimulationClock, wallMs: int, steadyMs: int)
      reads this, clock
    {
      && old(WellFormed())
      && 1 <= lineNumber <= old(numberOfLines)
      && old(lines)[lineNumber - 1] != []
      && var before := old(lines)[lineNumber - 1];
         var now := ClockReading(old(clock.simulationStartTime), wallMs);
         && lines == old(lines)[lineNumber - 1 := Depart(before, now)]
         && totalPeople == old(totalPeople) - 1
         && completedPeopleEver == old(completedPeopleEver) + (if |before| > 1 then 1 else 0)
         && totalActualWaitTime == old(totalActualWaitTime) +
              (if |before| > 1 then before[1].RecordExit(now).ActualWaitTime() else 0.0)
         && clock.simulationStartTime ==
              (if |before| > 1 then StartAfterReading(old(clock.simulationStartTime), wallMs)
               else old(clock.simulationStartTime))
         && totalPeopleEver == old(totalPeopleEver) && totalExpectedWaitTime == old(totalExpectedWaitTime)
         && lastSelectedLine == old(lastSelectedLine) && lastHourHistory == old(lastHourHistory)
         && ConfigUnchanged()
    }

    /** `dequeue`: the head of the given line leaves and the line's tracker
        records a service; fails, changing nothing, when the line does not
        exist or is empty. */
    method Dequeue(lineNumber: int, clock: SimulationClock, wallMs: int, steadyMs: int) returns (ok: bool)
      requires Valid()
      modifies this, clock, TrackerOf(lineNumber)
      ensures Valid()
      ensures ok <==> old(IsValidLineNumber(lineNumber) && lines[lineNumber - 1] != [])
      ensures !ok ==> unchanged(this) && unchanged(clock) && unchanged(TrackerOf(lineNumber))
      ensures ok ==> DepartedFrom(lineNumber, clock, wallMs, steadyMs)
      ensures ok ==> var t := trackers[lineNumber - 1];
                     && t.serviceCompletionCount == old(t.serviceCompletionCount) + 1
                     && t.lastServiceTime == steadyMs && t.sessionStartTime == old(t.sessionStartTime)
                     && t.currentThroughput ==
                          (if steadyMs - t.sessionStartTime > 0
                           then SessionThroughput.SessionRate(t.serviceCompletionCount, steadyMs - t.sessionStartTime)
                           else old(t.currentThroughput))
    {
      if !IsValidLineNumber(lineNumber) {
        return false;
      }
      if lines[lineNumber - 1] == [] {
        return false;
      }
      PopHead(lineNumber, clock, wallMs, steadyMs);
      trackers[lineNumber - 1].RecordServiceCompletion(steadyMs);
      ok := true;
    }

    /** The line part of `dequeue`: the head leaves and the new head, if not
        stamped yet, is stamped and counted. */
    method PopHead(lineNumber: int, clock: SimulationClock, wallMs: int, steadyMs: int)
      requires Valid() && IsValidLineNumber(lineNumber) && lines[lineNumber - 1] != []
      modifies this, clock
      ensures Valid()
      ensures DepartedFrom(lineNumber, clock, wallMs, steadyMs)
    {
      ghost var now := ClockReading(clock.simulationStartTime, wallMs);
      var before := lines[lineNumber - 1];
      var line, realised := PopTail(before, clock, wallMs);
      DepartKeepsShape(before, now, lineNumber);
      LinesShapedUpdate(lines, lineNumber - 1, line);
      SumSizesUpdate(lines, lineNumber - 1, line);
      lines := lines[lineNumber - 1 := line];
      totalPeople := totalPeople - 1;
      if |before| > 1 {
        completedPeopleEver := completedPeopleEver + 1;
        totalActualWaitTime := totalActualWaitTime + realised;
      }
    }

    /** `setLineCount`: replaces a line by `max(0, count)` unstamped placeholder
        people, each estimated on the line as built so far; the total follows.
        A line number that does not exist changes nothing. */
    method SetLineCount(lineNumber: int, count: int, clock: SimulationClock, wallMs: int)
      requires Valid()
      modifies this, clock
      ensures Valid()
      ensures ConfigUnchanged() && StatisticsUnchanged()
      ensures !old(IsValidLineNumber(lineNumber)) ==> unchanged(this) && unchanged(clock)
      ensures old(IsValidLineNumber(lineNumber)) ==>
                var validCount := if count < 0 then 0 else count;
                var now := ClockReading(old(clock.simulationStartTime), wallMs);
                && lines == old(lines)[lineNumber - 1 := DummyLine(validCount, lineNumber, old(LineRate(lineNumber - 1)), now)]
                && totalPeople == old(totalPeople) - old(|lines[lineNumber - 1]|) + validCount
                && clock.simulationStartTime ==
                     (if validCount > 0 then StartAfterReading(old(clock.simulationStartTime), wallMs)
                      else old(clock.simulationStartTime))
    {
      if !IsValidLineNumber(lineNumber) {
        return;
      }
      var validCount := if count < 0 then 0 else count;
      var line := BuildPlaceholders(validCount, lineNumber, LineRate(lineNumber - 1), clock, wallMs);
      DummyLineShape(validCount, lineNumber, LineRate(lineNumber - 1), ClockReading(old(clock.simulationStartTime), wallMs));
      LinesShapedUpdate(lines, lineNumber - 1, line);
      SumSizesUpdate(lines, lineNumber - 1, line);
      totalPeople := totalPeople - |lines[lineNumber - 1]| + validCount;
      lines := lines[lineNumber - 1 := line];
    }

    /** `reset`: every line emptied and the total 0; statistics and history stay. */
    method Reset()
      requires Valid()
      modifies this
      ensures Valid()
      ensures ConfigUnchanged() && StatisticsUnchanged()
      ensures |lines| == old(|lines|) && forall i :: 0 <= i < |lines| ==> lines[i] == []
      ensures totalPeople == 0
    {
      var cleared := lines;
      var i := 0;
      while i < numberOfLines
        invariant 0 <= i <= numberOfLines
        invariant |cleared| == numberOfLines
        invariant forall k :: 0 <= k < i ==> cleared[k] == []
      {
        cleared := cleared[i := []];
        i := i + 1;
      }
      lines := cleared;
      totalPeople := 0;
      SumSizesOfEmptyLines(lines);
    }

    /** `updateTotalPeople`: recomputes the total from the lines. */
    method UpdateTotalPeople()
      requires WellFormed()
      modifies this
      ensures Valid()
      ensures totalPeople == SumSizes(lines) && lines == old(lines)
      ensures ConfigUnchanged() && StatisticsUnchanged()
    {
      var total := 0;
      var i := 0;
      while i < numberOfLines
        invariant 0 <= i <= numberOfLines
        invariant total == SumSizes(lines[..i])
      {
        assert lines[..i + 1][..i] == lines[..i];
        total := total + |lines[i]|;
        i := i + 1;
      }
      assert lines[..i] == lines;
      totalPeople := total;
    }

    /** `updateLineThroughput`: stores the rate clamped to [0.1, 5.0]; a line
        number that does not exist changes nothing. */
    method UpdateLineThroughput(lineNumber: int, throughputPerSecond: real)
      requires Valid()
      modifies this
      ensures Valid()
      ensures lineThroughputs ==
                if old(IsValidLineNumber(lineNumber))
                then old(lineThroughputs)[lineNumber - 1 := ClampedThroughput.Clamp(throughputPerSecond)]
                else old(lineThroughputs)
      ensures lines == old(lines) && totalPeople == old(totalPeople) && StatisticsUnchanged()
      ensures maxSize == old(maxSize) && numberOfLines == old(numberOfLines)
      ensures strategyPrefix == old(strategyPrefix) && trackers == old(trackers)
    {
      if !IsValidLineNumber(lineNumber) {
        return;
      }
      var boundedThroughput := ClampedThroughput.Clamp(throughputPerSecond);
      lineThroughputs := lineThroughputs[lineNumber - 1 := boundedThroughput];
    }

    /** `getLineThroughput`: the stored rate, or the default for a line number
        that does not exist. */
    function GetLineThroughput(lineNumber: int): (r: real)
      reads this, trackers
      requires WellFormed()
      ensures !IsValidLineNumber(lineNumber) ==> r == DEFAULT_THROUGHPUT
      ensures r == DEFAULT_THROUGHPUT || ClampedThroughput.MIN_RATE <= r <= ClampedThroughput.MAX_RATE
    {
      if !IsValidLineNumber(lineNumber) then DEFAULT_THROUGHPUT else lineThroughputs[lineNumber - 1]
    }

    /** `getAllPeople`: everyone in the lines, line 1 first, each line front to back. */
    method GetAllPeople() returns (allPeople: seq<Person>)
      ensures allPeople == Flatten(lines)
      ensures Valid() ==> |allPeople| == totalPeople
    {
      allPeople := [];
      var i := 0;
      while i < |lines|
        invariant 0 <= i <= |lines|
        invariant allPeople == Flatten(lines[..i])
      {
        assert lines[..i + 1][..i] == lines[..i];
        var k := 0;
        while k < |lines[i]|
          invariant 0 <= k <= |lines[i]|
          invariant allPeople == Flatten(lines[..i]) + lines[i][..k]
        {
          assert lines[i][..k + 1] == lines[i][..k] + [lines[i][k]];
          allPeople := allPeople + [lines[i][k]];
          k := k + 1;
        }
        assert lines[i][..k] == lines[i];
        i := i + 1;
      }
      assert lines[..i] == lines;
    }

    /** `getPeopleInLine`: a copy of one line, empty for a line number that does not exist. */
    method GetPeopleInLine(lineNumber: int) returns (people: seq<Person>)
      requires |lines| == numberOfLines
      ensures people == if IsValidLineNumber(lineNumber) then lines[lineNumber - 1] else []
    {
      people := [];
      if !IsValidLineNumber(lineNumber) {
        return;
      }
      var line := lines[lineNumber - 1];
      var k := 0;
      while k < |line|
        invariant 0 <= k <= |line|
        invariant people == line[..k]
      {
        assert line[..k + 1] == line[..k] + [line[k]];
        people := people + [line[k]];
        k := k + 1;
      }
      assert line[..k] == line;
    }

    /** `getCumulativePeopleSummary`: the running statistics, with the current
        queue size as the active count; an average is 0 when its count is 0. */
    function GetCumulativePeopleSummary(): (s: PeopleSummary)
      reads this
      ensures s.totalPeople == totalPeopleEver && s.activePeople == totalPeople
      ensures s.completedPeople == completedPeopleEver
      ensures totalPeopleEver > 0 ==> s.averageExpectedWait * (totalPeopleEver as real) == totalExpectedWaitTime
      ensures totalPeopleEver <= 0 ==> s.averageExpectedWait == 0.0
      ensures completedPeopleEver > 0 ==> s.averageActualWait * (completedPeopleEver as real) == totalActualWaitTime
      ensures completedPeopleEver <= 0 ==> s.averageActualWait == 0.0
    {
      var averageExpectedWait := if totalPeopleEver > 0 then totalExpectedWaitTime / (totalPeopleEver as real) else 0.0;
      var averageActualWait := if completedPeopleEver > 0 then totalActualWaitTime / (completedPeopleEver as real) else 0.0;
      PeopleSummary(totalPeopleEver, totalPeople, completedPeopleEver, averageExpectedWait, averageActualWait)
    }

    /** `addPersonToHistory`: prune entries older than an hour, then append. */
    method AddPersonToHistory(person: Person, wallMs: int)
      modifies this
      ensures old(Valid()) ==> Valid()
      ensures lastHourHistory == PruneHistory(old(lastHourHistory), wallMs - ONE_HOUR_MS) + [person]
      ensures lines == old(lines) && totalPeople == old(totalPeople) && ConfigUnchanged()
      ensures totalPeopleEver == old(totalPeopleEver) && completedPeopleEver == old(completedPeopleEver)
      ensures totalExpectedWaitTime == old(totalExpectedWaitTime) && totalActualWaitTime == old(totalActualWaitTime)
      ensures lastSelectedLine == old(lastSelectedLine)
    {
      CleanOldHistoryEntries(wallMs);
      lastHourHistory := lastHourHistory + [person];
    }

    /** `cleanOldHistoryEntries`: drops the entries that entered before an hour ago. */
    method CleanOldHistoryEntries(wallMs: int)
      modifies this
      ensures old(Valid()) ==> Valid()
      ensures lastHourHistory == PruneHistory(old(lastHourHistory), wallMs - ONE_HOUR_MS)
      ensures lines == old(lines) && totalPeople == old(totalPeople) && ConfigUnchanged()
      ensures totalPeopleEver == old(totalPeopleEver) && completedPeopleEver == old(completedPeopleEver)
      ensures totalExpectedWaitTime == old(totalExpectedWaitTime) && totalActualWaitTime == old(totalActualWaitTime)
      ensures lastSelectedLine == old(lastSelectedLine)
    {
      var oneHourAgo := wallMs - ONE_HOUR_MS;
      lastHourHistory := PruneHistory(lastHourHistory, oneHourAgo);
    }

    function GetPeopleFromLastHour(): (history: seq<Person>)
      reads this
      ensures history == lastHourHistory
    {
      lastHourHistory
    }

    /** `updateAllAndCleanHistory`, with the cloud writes as outcomes: prune
        first; an empty history is success; otherwise the history is cleared
        only after a successful upload, and the result is then the outcome of
        the state write. */
    method UpdateAllAndCleanHistory(wallMs: int, historyUploaded: bool, stateWritten: bool) returns (ok: bool)
      modifies this
      ensures old(Valid()) ==> Valid()
      ensures var pruned := PruneHistory(old(lastHourHistory), wallMs - ONE_HOUR_MS);
              && (pruned == [] ==> ok && lastHourHistory == [])
              && (pruned != [] && historyUploaded ==> lastHourHistory == [] && ok == stateWritten)
              && (pruned != [] && !historyUploaded ==> lastHourHistory == pruned && !ok)
      ensures lines == old(lines) && totalPeople == old(totalPeople) && ConfigUnchanged()
      ensures totalPeopleEver == old(totalPeopleEver) && completedPeopleEver == old(completedPeopleEver)
      ensures totalExpectedWaitTime == old(totalExpectedWaitTime) && totalActualWaitTime == old(totalActualWaitTime)
      ensures lastSelectedLine == old(lastSelectedLine)
    {
      CleanOldHistoryEntries(wallMs);
      if lastHourHistory == [] {
        return true;
      }
      if historyUploaded {
        lastHourHistory := [];
        ok := stateWritten;
      } else {
        ok := false;
      }
    }
  }

  /** The strategy of `enqueueAuto`: fewest people while fewer than 30 people
      have completed, shortest estimated wait from then on. */
  function AdaptiveStrategy(completedPeople: int): (s: LineSelectionStrategy)
    ensures s == ShortestWaitTime <==> completedPeople >= ADAPTIVE_SWITCH
    ensures s == FewestPeople <==> completedPeople < ADAPTIVE_SWITCH
  {
    if completedPeople >= ADAPTIVE_SWITCH then ShortestWaitTime else FewestPeople
  }

  /** Completed people after which the adaptive strategy switches to shortest wait. */
  const ADAPTIVE_SWITCH: int := 30
}
