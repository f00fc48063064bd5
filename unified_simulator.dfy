/** The per-strategy wrapper of simulations/UnifiedQueueSimulator.cpp: each
    `StrategySimulator` owns one line router (50 people per line, 3 lines)
    and turns its strategy type into router calls.  The simulation loop, its
    random arrivals and services, and its thread are not part of this model. */
module UnifiedSimulator {
  import opened SessionPerson
  import LineRouter

  datatype StrategyType = FewestPeople | ShortestWaitTime | FarthestFromEntrance

  const MAX_QUEUE_SIZE: int := 50
  const NUMBER_OF_LINES: int := 3

  /** The strategy prefix each type gives its router. */
  function Suffix(t: StrategyType): string
  {
    match t
    case FewestPeople => "_shortest"
    case ShortestWaitTime => "_project"
    case FarthestFromEntrance => "_farthest"
  }

  /** Different types keep their router state under different prefixes. */
  lemma SuffixesDistinct(a: StrategyType, b: StrategyType)
    requires a != b
    ensures Suffix(a) != Suffix(b)
  {
  }

  /** The router strategy a type uses once `completed` people have completed:
      the shortest-wait type is adaptive, the others are fixed. */
  function RouterStrategy(t: StrategyType, completed: int): (s: LineRouter.LineSelectionStrategy)
    ensures t == FewestPeople ==> s == LineRouter.FewestPeople
    ensures t == FarthestFromEntrance ==> s == LineRouter.FarthestFromEntrance
    ensures t == ShortestWaitTime ==>
              (s == LineRouter.ShortestWaitTime <==> completed >= 30) &&
              (s == LineRouter.FewestPeople <==> completed < 30)
  {
    match t
    case FewestPeople => LineRouter.FewestPeople
    case ShortestWaitTime => LineRouter.AdaptiveStrategy(completed)
    case FarthestFromEntrance => LineRouter.FarthestFromEntrance
  }

  class StrategySimulator {
    var queueManager: LineRouter.QueueManager
    var strategyType: StrategyType
    var strategyName: string
    var firestoreCollection: string

    ghost predicate Valid()
      reads this, queueManager, queueManager.trackers
    {
      queueManager.Valid()
    }

    constructor (t: StrategyType, name: string, collection: string, steadyMs: int)
      ensures Valid() && fresh(queueManager)
      ensures strategyType == t && strategyName == name && firestoreCollection == collection
      ensures queueManager.strategyPrefix == Suffix(t) && queueManager.maxSize == MAX_QUEUE_SIZE
      ensures queueManager.totalPeople == 0 && queueManager.completedPeopleEver == 0
    {
      strategyType := t;
      strategyName := name;
      firestoreCollection := collection;
      queueManager := new LineRouter.QueueManager(MAX_QUEUE_SIZE, NUMBER_OF_LINES, Suffix(t), steadyMs);
    }

    /** `processArrival`: `enqueue` with the type's strategy; the adaptive
        type goes through `enqueueAuto`, which picks the same strategy. */
    method ProcessArrival(clock: SimulationClock, wallMs: int) returns (ok: bool)
      requires Valid()
      modifies queueManager, clock
      ensures Valid()
      ensures ok <==> old(queueManager.SomeLineOpen())
      ensures !ok ==> unchanged(queueManager) && unchanged(clock)
      ensures ok ==>
                var selected := queueManager.lastSelectedLine;
                && old(queueManager.IsNextLine(RouterStrategy(strategyType, queueManager.completedPeopleEver), selected))
                && queueManager.AdmittedOn(selected, clock, wallMs)
    {
      match strategyType
      case FewestPeople =>
        ok := queueManager.Enqueue(LineRouter.FewestPeople, clock, wallMs);
      case ShortestWaitTime =>
        ok := queueManager.EnqueueAuto(clock, wallMs);
      case FarthestFromEntrance =>
        ok := queueManager.Enqueue(LineRouter.FarthestFromEntrance, clock, wallMs);
    }

    /** `processService`: serves the line only when it has someone; an
        unknown line reports -1 people and is not served. */
    method ProcessService(line: int, clock: SimulationClock, wallMs: int, steadyMs: int) returns (served: bool)
      requires Valid()
      modifies queueManager, clock, queueManager.TrackerOf(line)
      ensures Valid()
      ensures served <==> old(queueManager.GetLineCount(line)) > 0
      ensures !served ==> unchanged(queueManager) && unchanged(clock) && unchanged(old(queueManager.TrackerOf(line)))
      ensures served ==> queueManager.DepartedFrom(line, clock, wallMs, steadyMs)
    {
      if queueManager.GetLineCount(line) > 0 {
        var ok := queueManager.Dequeue(line, clock, wallMs, steadyMs);
        return true;
      }
      return false;
    }

    /** `getNextLineNumber`: the router's choice for the type's current strategy. */
    method GetNextLineNumber() returns (r: int)
      requires Valid()
      ensures queueManager.IsNextLine(RouterStrategy(strategyType, queueManager.GetCumulativePeopleSummary().completedPeople), r)
    {
      match strategyType
      case FewestPeople =>
        r := queueManager.GetNextLineNumber(LineRouter.FewestPeople);
      case ShortestWaitTime =>
        var strategy := if queueManager.GetCumulativePeopleSummary().completedPeople >= 30
                        then LineRouter.ShortestWaitTime else LineRouter.FewestPeople;
        r := queueManager.GetNextLineNumber(strategy);
      case FarthestFromEntrance =>
        r := queueManager.GetNextLineNumber(LineRouter.FarthestFromEntrance);
    }

    /** `getCurrentStrategyDescription`: for the adaptive type, the name of the
        strategy in use, by the same threshold as `getNextLineNumber`. */
    function GetCurrentStrategyDescription(): (d: string)
      reads this, queueManager
      ensures strategyType != ShortestWaitTime ==> d == strategyName
      ensures strategyType == ShortestWaitTime ==>
                var s := RouterStrategy(strategyType, queueManager.GetCumulativePeopleSummary().completedPeople);
                && (s == LineRouter.ShortestWaitTime ==> d == "SHORTEST_WAIT_TIME")
                && (s == LineRouter.FewestPeople ==> d == "FEWEST_PEOPLE (adaptive)")
    {
      if strategyType == ShortestWaitTime then
        var usingShortestWait := queueManager.GetCumulativePeopleSummary().completedPeople >= 30;
        if usingShortestWait then "SHORTEST_WAIT_TIME" else "FEWEST_PEOPLE (adaptive)"
      else strategyName
    }
  }
}
