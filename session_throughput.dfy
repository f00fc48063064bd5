/** The service-rate tracker used by the line router (shared/cpp/ThroughputTracker.cpp):
    the rate is the number of completions over the whole session time, with
    no bound.  The steady clock is injected as milliseconds. */
module SessionThroughput {

  /** Declared in shared/cpp/ThroughputTracker.h: people per second before any data. */
  const DEFAULT_THROUGHPUT: real := 0.1

  /** Completions needed before the rate counts as measured; the tracker header of
      this snapshot does not declare it, so its value is left abstract. */
  const MIN_SERVICES_FOR_RELIABLE_DATA: int

  /** Completions per second over a session of `elapsedMs` milliseconds. */
  function SessionRate(count: int, elapsedMs: int): (r: real)
    requires count > 0 && elapsedMs > 0
    ensures r > 0.0
    ensures r * (elapsedMs as real) == 1000.0 * (count as real)
  {
    count as real / (elapsedMs as real / 1000.0)
  }

  class ThroughputTracker {
    var sessionStartTime: int   // steady clock, milliseconds
    var lastServiceTime: int
    var serviceCompletionCount: int
    var currentThroughput: real
    var hasRecordedService: bool

    /** The rate never reaches zero, so it is always a safe divisor. */
    ghost predicate Valid()
      reads this
    {
      && serviceCompletionCount >= 0
      && currentThroughput > 0.0
      && (hasRecordedService <==> serviceCompletionCount > 0)
    }

    constructor (steadyMs: int)
      ensures Valid()
      ensures sessionStartTime == steadyMs && lastServiceTime == steadyMs
      ensures serviceCompletionCount == 0 && currentThroughput == DEFAULT_THROUGHPUT
      ensures !hasRecordedService
    {
      sessionStartTime := steadyMs;
      lastServiceTime := steadyMs;
      serviceCompletionCount := 0;
      currentThroughput := DEFAULT_THROUGHPUT;
      hasRecordedService := false;
    }

    method RecordServiceCompletion(steadyMs: int)
      requires Valid()
      modifies this
      ensures Valid()
      ensures serviceCompletionCount == old(serviceCompletionCount) + 1
      ensures lastServiceTime == steadyMs && hasRecordedService
      ensures sessionStartTime == old(sessionStartTime)
      ensures currentThroughput ==
                if steadyMs - sessionStartTime > 0
                then SessionRate(serviceCompletionCount, steadyMs - sessionStartTime)
                else old(currentThroughput)
      ensures old(HasReliableData()) ==> HasReliableData()
    {
      serviceCompletionCount := serviceCompletionCount + 1;
      lastServiceTime := steadyMs;
      hasRecordedService := true;
      var totalSessionTime := steadyMs - sessionStartTime;
      if totalSessionTime > 0 {
        currentThroughput := SessionRate(serviceCompletionCount, totalSessionTime);
      }
    }

    function GetCurrentThroughput(): real
      reads this
    {
      currentThroughput
    }

    function GetServiceCount(): int
      reads this
    {
      serviceCompletionCount
    }

    method Reset(steadyMs: int)
      modifies this
      ensures Valid()
      ensures sessionStartTime == steadyMs && lastServiceTime == steadyMs
      ensures serviceCompletionCount == 0 && currentThroughput == DEFAULT_THROUGHPUT
      ensures !hasRecordedService
    {
      sessionStartTime := steadyMs;
      lastServiceTime := steadyMs;
      serviceCompletionCount := 0;
      currentThroughput := DEFAULT_THROUGHPUT;
      hasRecordedService := false;
    }

    predicate HasReliableData()
      reads this
    {
      serviceCompletionCount >= MIN_SERVICES_FOR_RELIABLE_DATA
    }
  }
}
