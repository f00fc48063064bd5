/** The tracker of shared/queueManagment/ThroughputTracker.cpp: the session
    rate is recomputed only once enough completions are seen, and is then
    clamped to [0.1, 5.0] people per second. */
module ClampedThroughput {

  /** The header of this snapshot is not part of this model, so both
      constants are left abstract. */
  const DEFAULT_THROUGHPUT: real
  const MIN_SERVICES_FOR_CALCULATION: int

  const MIN_RATE: real := 0.1
  const MAX_RATE: real := 5.0

  /** `std::max(0.1, std::min(5.0, x))`. */
  function Clamp(x: real): (r: real)
    ensures MIN_RATE <= r <= MAX_RATE
    ensures MIN_RATE <= x <= MAX_RATE ==> r == x
    ensures x < MIN_RATE ==> r == MIN_RATE
    ensures x > MAX_RATE ==> r == MAX_RATE
  {
    if x > MAX_RATE then MAX_RATE else if x < MIN_RATE then MIN_RATE else x
  }

  /** Clamping twice is clamping once, and clamping keeps the order of rates. */
  lemma ClampIdempotentMonotone(x: real, y: real)
    ensures Clamp(Clamp(x)) == Clamp(x)
    ensures x <= y ==> Clamp(x) <= Clamp(y)
  {
  }

  class ThroughputTracker {
    var sessionStartTime: int
    var lastServiceTime: int
    var serviceCompletionCount: int
    var currentThroughput: real
    var hasRecordedService: bool

    /** Either the default rate or a rate inside the clamp bounds. */
    ghost predicate Valid()
      reads this
    {
      && serviceCompletionCount >= 0
      && (currentThroughput == DEFAULT_THROUGHPUT || MIN_RATE <= currentThroughput <= MAX_RATE)
      && (hasRecordedService <==> serviceCompletionCount > 0)
    }

    constructor (steadyMs: int)
      ensures Valid()
      ensures sessionStartTime == steadyMs && lastServiceTime == steadyMs
      ensures serviceCompletionCount == 0 && currentThroughput == DEFAULT_THROUGHPUT
      ensures !hasRecordedService
    {
      sessionStartTime := steadyMs;
      lastServiceTime := steadyMs;
      serviceCompletionCount := 0;
      currentThroughput := DEFAULT_THROUGHPUT;
      hasRecordedService := false;
    }

    method RecordServiceCompletion(steadyMs: int)
      requires Valid()
      modifies this
      ensures Valid()
      ensures serviceCompletionCount == old(serviceCompletionCount) + 1
      ensures lastServiceTime == steadyMs && hasRecordedService
      ensures sessionStartTime == old(sessionStartTime)
      ensures currentThroughput ==
                if serviceCompletionCount >= MIN_SERVICES_FOR_CALCULATION && steadyMs - sessionStartTime > 0
                then Clamp(serviceCompletionCount as real / ((steadyMs - sessionStartTime) as real / 1000.0))
                else old(currentThroughput)
      ensures currentThroughput != old(currentThroughput) ==> MIN_RATE <= currentThroughput <= MAX_RATE
    {
      serviceCompletionCount := serviceCompletionCount + 1;
      lastServiceTime := steadyMs;
      hasRecordedService := true;
      if serviceCompletionCount >= MIN_SERVICES_FOR_CALCULATION {
        var totalSessionTime := steadyMs - sessionStartTime;
        if totalSessionTime > 0 {
          currentThroughput := serviceCompletionCount as real / (totalSessionTime as real / 1000.0);
          currentThroughput := Clamp(currentThroughput);
        }
      }
    }

    function GetCurrentThroughput(): real
      reads this
    {
      currentThroughput
    }

    function GetServiceCount(): int
      reads this
    {
      serviceCompletionCount
    }

    method Reset(steadyMs: int)
      modifies this
      ensures Valid()
      ensures sessionStartTime == steadyMs && lastServiceTime == steadyMs
      ensures serviceCompletionCount == 0 && currentThroughput == DEFAULT_THROUGHPUT
      ensures !hasRecordedService
    {
      sessionStartTime := steadyMs;
      lastServiceTime := steadyMs;
      serviceCompletionCount := 0;
      currentThroughput := DEFAULT_THROUGHPUT;
      hasRecordedService := false;
    }

    predicate HasReliableData()
      reads this
    {
      serviceCompletionCount >= MIN_SERVICES_FOR_CALCULATION
    }
  }
}
