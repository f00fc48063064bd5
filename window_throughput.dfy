/** The tracker of shared/cpp/queueManagment/ThroughputTracker.cpp: a sliding
    window of recent completion times, bounded in length and in age; once the
    window holds enough completions the rate is smoothed toward the window's
    rate, before that it falls back to the session rate. */
module WindowThroughput {
  import opened Sequences

  type Positive = n: nat | n > 0 witness 1
  type NonNegativeReal = r: real | r >= 0.0 witness 0.0

  /** The header of this snapshot is not part of this model: the
      constants are abstract.  The window length is taken positive and the
      window age non-negative; `MIN_SERVICES_FOR_CALCULATION` is compared with
      a `size_t`, so it is taken as a natural number. */
  const DEFAULT_THROUGHPUT: real
  const MIN_SERVICES_FOR_CALCULATION: nat
  const MAX_WINDOW_SIZE: Positive
  const WINDOW_TIME_SECONDS: NonNegativeReal

  /** How much of the new window rate enters the smoothed rate. */
  const SMOOTHING_FACTOR: real := 0.3

  /** `std::chrono::seconds(static_cast<long>(WINDOW_TIME_SECONDS))` in milliseconds. */
  function WindowMillis(): (ms: nat)
    ensures ms as real <= WINDOW_TIME_SECONDS * 1000.0
  {
    WINDOW_TIME_SECONDS.Floor * 1000
  }

  /** The entries of `s` not older than `cutoff`, in their original order
      (the `remove_if` with `t < cutoffTime`). */
  function KeepRecent(s: seq<int>, cutoff: int): (r: seq<int>)
    ensures |r| <= |s|
    ensures forall i :: 0 <= i < |r| ==> r[i] >= cutoff
  {
    if s == [] then []
    else if s[0] < cutoff then KeepRecent(s[1..], cutoff)
    else [s[0]] + KeepRecent(s[1..], cutoff)
  }

  /** What `KeepRecent` keeps: exactly the entries at or after the cutoff,
      without reordering them (how many copies: `KeepRecentCounts`). */
  lemma {:induction false} KeepRecentSpec(s: seq<int>, cutoff: int)
    ensures IsSubsequence(KeepRecent(s, cutoff), s)
    ensures forall t :: t in s && t >= cutoff ==> t in KeepRecent(s, cutoff)
    ensures (forall i :: 0 <= i < |s| ==> s[i] >= cutoff) ==> KeepRecent(s, cutoff) == s
  {
    if s != [] {
      KeepRecentSpec(s[1..], cutoff);
      assert forall t :: t in s ==> t == s[0] || t in s[1..];
    }
  }

  /** How many copies of each stamp `KeepRecent` keeps: all of them at or
      after the cutoff, none before. */
  lemma {:induction false} KeepRecentCounts(s: seq<int>, cutoff: int)
    ensures forall t :: multiset(KeepRecent(s, cutoff))[t] == if t >= cutoff then multiset(s)[t] else 0
  {
    if s != [] {
      KeepRecentCounts(s[1..], cutoff);
      assert s == [s[0]] + s[1..];
    }
  }

  /** The vector after `push_back(now)` and the size check. */
  function Capped(w: seq<int>): (r: seq<int>)
    ensures |w| <= MAX_WINDOW_SIZE ==> r == w
    ensures |w| > MAX_WINDOW_SIZE ==> r == w[1..]
  {
    if |w| > MAX_WINDOW_SIZE then w[1..] else w
  }

  /** Completions per second inside a window of `size` times spanning `spanMs`:
      `size` times bound `size - 1` intervals. */
  function WindowRate(size: nat, spanMs: int): (r: real)
    requires size >= 1 && spanMs > 0
    ensures r >= 0.0 && r * (spanMs as real) == 1000.0 * ((size - 1) as real)
  {
    (size - 1) as real / (spanMs as real / 1000.0)
  }

  /** Exponential smoothing: 70% of the old rate and 30% of the window rate. */
  function Smoothed(previous: real, windowRate: real): (r: real)
    ensures previous <= windowRate ==> previous <= r <= windowRate
    ensures windowRate <= previous ==> windowRate <= r <= previous
    ensures previous == windowRate ==> r == previous
  {
    (1.0 - SMOOTHING_FACTOR) * previous + SMOOTHING_FACTOR * windowRate
  }

  /** Repeated smoothing toward a fixed window rate closes 30% of the gap each time. */
  lemma SmoothedGap(previous: real, windowRate: real)
    ensures Smoothed(previous, windowRate) - windowRate == 0.7 * (previous - windowRate)
  {
  }

  class ThroughputTracker {
    var sessionStartTime: int
    var lastServiceTime: int
    var serviceCompletionCount: int
    var currentThroughput: real
    var hasRecordedService: bool
    var recentServices: seq<int>   // steady clock, milliseconds, oldest first

    ghost predicate Valid()
      reads this
    {
      && serviceCompletionCount >= 0
      && |recentServices| <= MAX_WINDOW_SIZE
      && (hasRecordedService <==> serviceCompletionCount > 0)
    }

    constructor (steadyMs: int)
      ensures Valid()
      ensures sessionStartTime == steadyMs && lastServiceTime == steadyMs
      ensures serviceCompletionCount == 0 && currentThroughput == DEFAULT_THROUGHPUT
      ensures !hasRecordedService && recentServices == []
    {
      sessionStartTime := steadyMs;
      lastServiceTime := steadyMs;
      serviceCompletionCount := 0;
      currentThroughput := DEFAULT_THROUGHPUT;
      hasRecordedService := false;
      recentServices := [];
    }

    method RecordServiceCompletion(steadyMs: int)
      requires Valid()
      modifies this
      ensures Valid()
      ensures serviceCompletionCount == old(serviceCompletionCount) + 1
      ensures lastServiceTime == steadyMs && hasRecordedService
      ensures sessionStartTime == old(sessionStartTime)
      ensures recentServices == KeepRecent(Capped(old(recentServices) + [steadyMs]), steadyMs - WindowMillis())
      ensures recentServices != [] && recentServices[|recentServices| - 1] == steadyMs
      ensures forall i :: 0 <= i < |recentServices| ==> recentServices[i] >= steadyMs - WindowMillis()
      ensures |recentServices| >= MIN_SERVICES_FOR_CALCULATION ==>
                currentThroughput ==
                  if recentServices[|recentServices| - 1] - recentServices[0] > 0
                  then Smoothed(old(currentThroughput),
                                WindowRate(|recentServices|, recentServices[|recentServices| - 1] - recentServices[0]))
                  else old(currentThroughput)
      ensures |recentServices| < MIN_SERVICES_FOR_CALCULATION ==>
                currentThroughput ==
                  if serviceCompletionCount >= MIN_SERVICES_FOR_CALCULATION && steadyMs - sessionStartTime > 0
                  then serviceCompletionCount as real / ((steadyMs - sessionStartTime) as real / 1000.0)
                  else old(currentThroughput)
    {
      serviceCompletionCount := serviceCompletionCount + 1;
      lastServiceTime := steadyMs;
      hasRecordedService := true;

      recentServices := recentServices + [steadyMs];
      if |recentServices| > MAX_WINDOW_SIZE {
        recentServices := recentServices[1..];
      }
      ghost var capped := recentServices;
      assert capped[|capped| - 1] == steadyMs;
      var cutoffTime := steadyMs - WindowMillis();
      recentServices := KeepRecent(recentServices, cutoffTime);
      KeepNewest(capped, cutoffTime);

      if |recentServices| >= MIN_SERVICES_FOR_CALCULATION {
        var windowStart := recentServices[0];
        var windowEnd := recentServices[|recentServices| - 1];
        var windowDuration := windowEnd - windowStart;
        if windowDuration > 0 {
          var windowThroughput := WindowRate(|recentServices|, windowDuration);
          currentThroughput := Smoothed(currentThroughput, windowThroughput);
        }
      } else if serviceCompletionCount >= MIN_SERVICES_FOR_CALCULATION {
        var totalSessionTime := steadyMs - sessionStartTime;
        if totalSessionTime > 0 {
          currentThroughput := serviceCompletionCount as real / (totalSessionTime as real / 1000.0);
        }
      }
    }

    function GetCurrentThroughput(): real
      reads this
    {
      currentThroughput
    }

    function GetServiceCount(): int
      reads this
    {
      serviceCompletionCount
    }

    method Reset(steadyMs: int)
      modifies this
      ensures Valid()
      ensures sessionStartTime == steadyMs && lastServiceTime == steadyMs
      ensures serviceCompletionCount == 0 && currentThroughput == DEFAULT_THROUGHPUT
      ensures !hasRecordedService && recentServices == []
    {
      sessionStartTime := steadyMs;
      lastServiceTime := steadyMs;
      serviceCompletionCount := 0;
      currentThroughput := DEFAULT_THROUGHPUT;
      hasRecordedService := false;
      recentServices := [];
    }

    /** Enough recent completions, or enough completions overall. */
    predicate HasReliableData()
      reads this
    {
      |recentServices| >= MIN_SERVICES_FOR_CALCULATION || serviceCompletionCount >= MIN_SERVICES_FOR_CALCULATION
    }
  }

  /** The newest entry survives the age filter, and stays last. */
  lemma {:induction false} KeepNewest(s: seq<int>, cutoff: int)
    requires s != [] && s[|s| - 1] >= cutoff
    ensures KeepRecent(s, cutoff) != []
    ensures KeepRecent(s, cutoff)[|KeepRecent(s, cutoff)| - 1] == s[|s| - 1]
  {
    if |s| > 1 {
      KeepNewest(s[1..], cutoff);
    }
  }
}
